/** The web framework and identity-server surface the account pages talk to:
    nullable strings, the records the collaborators hand back, the action
    results a page handler returns, and the log of side effects the handlers
    cause in their collaborators (events, consent, sessions, stores). */
module Platform {

  datatype Option<+T> = None | Some(value: T)

  // ---------------------------------------------------------------------
  // .NET string helpers

  predicate IsNullOrEmpty(s: Option<string>) {
    s.None? || s.value == ""
  }

  /** `char.IsWhiteSpace`: the Unicode space, line and paragraph separators
      together with U+0009..U+000D and U+0085. */
  predicate IsWhiteSpaceChar(c: char) {
    ('\U{0009}' <= c <= '\U{000D}') || c == '\U{0020}' || c == '\U{0085}' || c == '\U{00A0}'
    || c == '\U{1680}' || ('\U{2000}' <= c <= '\U{200A}') || c == '\U{2028}' || c == '\U{2029}'
    || c == '\U{202F}' || c == '\U{205F}' || c == '\U{3000}'
  }

  predicate IsNullOrWhiteSpace(s: Option<string>) {
    s.None? || forall i :: 0 <= i < |s.value| ==> IsWhiteSpaceChar(s.value[i])
  }

  function FoldCase(c: char): char {
    if 'a' <= c <= 'z' then (c as int - 32) as char else c
  }

  /** `string.Equals(a, b, StringComparison.OrdinalIgnoreCase)`, with ASCII case folding. */
  predicate EqualsOrdinalIgnoreCase(a: string, b: string) {
    |a| == |b| && forall i :: 0 <= i < |a| ==> FoldCase(a[i]) == FoldCase(b[i])
  }

  // ---------------------------------------------------------------------
  // records handed back by the collaborators

  /** A pending authorization request (`AuthorizationRequest`). */
  datatype AuthorizationRequest = AuthorizationRequest(
    clientId: Option<string>,
    idP: Option<string>,
    loginHint: Option<string>)

  /** A pending logout request (`LogoutRequest`). */
  datatype LogoutRequest = LogoutRequest(
    clientId: Option<string>,
    clientName: Option<string>,
    postLogoutRedirectUri: Option<string>,
    signOutIFrameUrl: Option<string>,
    showSignoutPrompt: bool)

  /** The part of a registered client the login page reads. */
  datatype Client = Client(
    clientId: string,
    enableLocalLogin: bool,
    identityProviderRestrictions: Option<seq<string>>)

  /** A registered authentication handler. */
  datatype AuthenticationScheme = AuthenticationScheme(name: string, displayName: Option<string>)

  datatype ApplicationUser = ApplicationUser(id: string, userName: Option<string>, email: Option<string>)

  /** The signed-in principal of the request (`HttpContext.User`). */
  datatype Principal = Principal(
    isAuthenticated: bool,
    subjectId: string,
    displayName: Option<string>,
    identityProvider: Option<string>)

  predicate IsAuthenticated(user: Option<Principal>) {
    user.Some? && user.value.isAuthenticated
  }

  /** `IdentityServerConstants.LocalIdentityProvider`. */
  const LocalIdentityProvider: string := "local"

  datatype SignInResult = Succeeded | Failed | LockedOut | NotAllowed | RequiresTwoFactor

  datatype IdentityError = IdentityError(code: string, description: string)

  datatype IdentityResult = IdentityResult(succeeded: bool, errors: seq<IdentityError>)

  datatype ConsentResponse = Denied

  /** The identity server's interaction service, as seen by the pages: the
      pending requests it knows for a return URL or logout id, and the id it
      hands out when asked to create a logout context. */
  datatype Interaction = Interaction(
    getAuthorizationContext: Option<string> -> Option<AuthorizationRequest>,
    getLogoutContext: Option<string> -> Option<LogoutRequest>,
    createdLogoutId: Option<string>)
  {
    /** `GetAuthorizationContextAsync(returnUrl)`. */
    function AuthorizationContext(returnUrl: Option<string>): Option<AuthorizationRequest> {
      getAuthorizationContext(returnUrl)
    }

    /** `GetLogoutContextAsync(logoutId)`. */
    function LogoutContext(logoutId: Option<string>): Option<LogoutRequest> {
      getLogoutContext(logoutId)
    }
  }

  /** The values of `AccountOptions`, which are configuration here. */
  datatype AccountOptions = AccountOptions(
    allowLocalLogin: bool,
    allowRememberLogin: bool,
    showLogoutPrompt: bool,
    automaticRedirectAfterSignOut: bool,
    windowsAuthenticationSchemeName: string,
    invalidCredentialsErrorMessage: string)

  // ---------------------------------------------------------------------
  // what handlers return

  datatype RouteValue = RouteValue(name: string, value: Option<string>)

  /** `Url.Action(action, values)`, kept unformatted. */
  datatype ActionRoute = ActionRoute(action: string, values: seq<RouteValue>)

  datatype ActionResult =
    | PageResult
    | Redirect(url: Option<string>)
    | RedirectToPage(page: string, values: seq<RouteValue>)
    | SignOut(redirectUri: ActionRoute, scheme: string)

  datatype Exception = GenericException(message: string) | NullReferenceException

  /** A handler either completes with an action result or throws. */
  datatype HandlerResult = Completed(action: ActionResult) | Threw(error: Exception)

  /** The application root, `~/`. */
  const Home: string := "~/"

  datatype ModelError = ModelError(key: string, message: string)

  // ---------------------------------------------------------------------
  // side effects on collaborators, in the order they happen

  datatype Effect =
    | ConsentGranted(request: AuthorizationRequest, response: ConsentResponse)
    | PasswordSignIn(userName: Option<string>, password: Option<string>, isPersistent: bool, lockoutOnFailure: bool)
    | UserLoginSuccessEvent(userName: Option<string>, subjectId: string, displayName: Option<string>)
    | UserLoginFailureEvent(userName: Option<string>, reason: string)
    | CreateUser(user: ApplicationUser, password: Option<string>)
    | SessionSignIn(user: ApplicationUser, isPersistent: bool)
    | SessionSignOut
    | UserLogoutSuccessEvent(subjectId: string, displayName: Option<string>)
    | LogoutContextCreated(logoutId: Option<string>)

  class EffectLog {
    var entries: seq<Effect>

    constructor ()
      ensures entries == []
    {
      entries := [];
    }

    method Append(e: Effect)
      modifies this
      ensures entries == old(entries) + [e]
    {
      entries := entries + [e];
    }
  }
}
