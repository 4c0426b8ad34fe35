/** The login page: what the login prompt offers (local login, which external
    providers, whether the only way in is one external provider) and what a
    submitted form leads to (consent denial, redirect, error, re-render). */
module Login {
  import opened Platform
  import opened Sequences
  import opened ReturnUrls

  datatype ExternalProvider = ExternalProvider(displayName: Option<string>, authenticationScheme: string)

  /** The collaborators the login page consults. */
  datatype LoginServices = LoginServices(
    interaction: Interaction,
    findEnabledClientById: string -> Option<Client>,
    schemes: seq<AuthenticationScheme>,
    passwordSignIn: (Option<string>, Option<string>, bool) -> SignInResult,
    findByName: Option<string> -> Option<ApplicationUser>,
    isLocalUrl: Option<string> -> bool)
  {
    function AuthorizationContext(returnUrl: Option<string>): Option<AuthorizationRequest> {
      interaction.AuthorizationContext(returnUrl)
    }

    /** `FindEnabledClientByIdAsync(clientId)`. */
    function FindEnabledClient(clientId: string): Option<Client> {
      findEnabledClientById(clientId)
    }

    /** The outcome of `PasswordSignInAsync` (lockout on failure is always requested). */
    function PasswordSignInResult(userName: Option<string>, password: Option<string>, isPersistent: bool): SignInResult {
      passwordSignIn(userName, password, isPersistent)
    }

    /** `FindByNameAsync(userName)`. */
    function FindByName(userName: Option<string>): Option<ApplicationUser> {
      findByName(userName)
    }
  }

  const LoginButton: string := "login"
  const InvalidCredentialsReason: string := "invalid credentials"
  const ExternalLoginPage: string := "./ExternalLogin"

  // ---------------------------------------------------------------------
  // the provider list

  /** The `Select` that turns a scheme into a provider entry. */
  function ToProvider(s: AuthenticationScheme): ExternalProvider {
    ExternalProvider(s.displayName, s.name)
  }

  /** The scheme a provider entry was made from. */
  function SchemeOf(p: ExternalProvider): AuthenticationScheme {
    AuthenticationScheme(p.authenticationScheme, p.displayName)
  }

  /** A scheme is offered when it has a display name or is the Windows scheme. */
  predicate IsListedScheme(s: AuthenticationScheme, windowsSchemeName: string) {
    s.displayName.Some? || EqualsOrdinalIgnoreCase(s.name, windowsSchemeName)
  }

  function Listed(windowsSchemeName: string): AuthenticationScheme -> bool {
    (s: AuthenticationScheme) => IsListedScheme(s, windowsSchemeName)
  }

  /** The `Where`/`Select` over the registered schemes: at most one provider per scheme. */
  function ProvidersFromSchemes(schemes: seq<AuthenticationScheme>, windowsSchemeName: string): (r: seq<ExternalProvider>)
    ensures |r| <= |schemes|
  {
    Map(Filter(schemes, Listed(windowsSchemeName)), ToProvider)
  }

  /** Every listed scheme, and nothing else, becomes a provider, in scheme order. */
  lemma ProvidersFromSchemesExact(schemes: seq<AuthenticationScheme>, windowsSchemeName: string)
    ensures forall p :: p in ProvidersFromSchemes(schemes, windowsSchemeName) <==>
      SchemeOf(p) in schemes && IsListedScheme(SchemeOf(p), windowsSchemeName)
    ensures forall s :: s in schemes ==>
      (ToProvider(s) in ProvidersFromSchemes(schemes, windowsSchemeName) <==> IsListedScheme(s, windowsSchemeName))
    ensures IsSubsequence(ProvidersFromSchemes(schemes, windowsSchemeName), Map(schemes, ToProvider))
  {
    var kept := Filter(schemes, Listed(windowsSchemeName));
    var r := Map(kept, ToProvider);
    FilterMembers(schemes, Listed(windowsSchemeName));
    forall p ensures p in r <==> SchemeOf(p) in kept {
      if p in r {
        var i :| 0 <= i < |r| && r[i] == p;
        assert SchemeOf(p) == kept[i];
      }
      if SchemeOf(p) in kept {
        var i :| 0 <= i < |kept| && kept[i] == SchemeOf(p);
        assert r[i] == p;
      }
    }
    forall s | s in schemes ensures ToProvider(s) in r <==> IsListedScheme(s, windowsSchemeName) {
      assert SchemeOf(ToProvider(s)) == s;
    }
    FilterIsSubsequence(schemes, Listed(windowsSchemeName));
    MapPreservesSubsequence(kept, schemes, ToProvider);
  }

  /** The client whose policy applies: only looked up when the request names one. */
  function ResolveClient(context: Option<AuthorizationRequest>, svc: LoginServices): (r: Option<Client>)
    ensures r.Some? ==> context.Some? && context.value.clientId.Some?
    ensures context.Some? && context.value.clientId.Some? ==> r == svc.FindEnabledClient(context.value.clientId.value)
  {
    if context.Some? && context.value.clientId.Some? then svc.FindEnabledClient(context.value.clientId.value) else None
  }

  /** A client restricts providers only with a non-null, non-empty restriction list. */
  predicate RestrictsProviders(client: Option<Client>) {
    client.Some? && client.value.identityProviderRestrictions.Some? && |client.value.identityProviderRestrictions.value| > 0
  }

  function AllowedBy(restrictions: seq<string>): ExternalProvider -> bool {
    (p: ExternalProvider) => p.authenticationScheme in restrictions
  }

  /** The client's `IdentityProviderRestrictions` applied to the provider list. */
  function RestrictToClient(providers: seq<ExternalProvider>, client: Option<Client>): (r: seq<ExternalProvider>)
    ensures |r| <= |providers|
    ensures !RestrictsProviders(client) ==> r == providers
  {
    if RestrictsProviders(client)
    then Filter(providers, AllowedBy(client.value.identityProviderRestrictions.value))
    else providers
  }

  /** A restricting client keeps exactly the providers it names, in order; any other leaves the list alone. */
  lemma RestrictToClientExact(providers: seq<ExternalProvider>, client: Option<Client>)
    ensures RestrictsProviders(client) ==>
      (forall p :: p in RestrictToClient(providers, client) <==>
         p in providers && p.authenticationScheme in client.value.identityProviderRestrictions.value)
    ensures IsSubsequence(RestrictToClient(providers, client), providers)
    ensures !RestrictsProviders(client) ==> RestrictToClient(providers, client) == providers
  {
    if RestrictsProviders(client) {
      var keep := AllowedBy(client.value.identityProviderRestrictions.value);
      FilterMembers(providers, keep);
      FilterIsSubsequence(providers, keep);
    } else {
      FilterKeepsAll(providers, _ => true);
      FilterIsSubsequence(providers, _ => true);
    }
  }

  /** Local login is allowed by a resolved client's flag, and by default otherwise. */
  function AllowLocal(client: Option<Client>): (r: bool)
    ensures client.None? ==> r
    ensures client.Some? ==> (r <==> client.value.enableLocalLogin)
  {
    if client.Some? then client.value.enableLocalLogin else true
  }

  predicate HasIdPHint(context: Option<AuthorizationRequest>) {
    context.Some? && context.value.idP.Some?
  }

  function LoginHintOf(context: Option<AuthorizationRequest>): Option<string> {
    if context.Some? then context.value.loginHint else None
  }

  /** The providers the prompt is built with. */
  function PromptProviders(context: Option<AuthorizationRequest>, svc: LoginServices, options: AccountOptions): seq<ExternalProvider> {
    if HasIdPHint(context) then [ExternalProvider(None, context.value.idP.value)]
    else RestrictToClient(ProvidersFromSchemes(svc.schemes, options.windowsAuthenticationSchemeName),
                          ResolveClient(context, svc))
  }

  /** Whether the prompt offers local login. */
  function PromptEnablesLocalLogin(context: Option<AuthorizationRequest>, svc: LoginServices, options: AccountOptions): bool {
    if HasIdPHint(context) then false
    else AllowLocal(ResolveClient(context, svc)) && options.allowLocalLogin
  }

  /** The external-only rule: no local login and exactly one provider. */
  predicate ExternalOnly(enableLocalLogin: bool, providers: seq<ExternalProvider>) {
    !enableLocalLogin && |providers| == 1
  }

  function HasVisibleName(): ExternalProvider -> bool {
    (p: ExternalProvider) => !IsNullOrWhiteSpace(p.displayName)
  }

  /** An `IdP` hint short-circuits all policy: only that provider, no local
      login, so the prompt is external-only, and the hinted provider (which
      has no display name) is not among the visible providers. */
  lemma IdPHintForcesExternalLogin(context: Option<AuthorizationRequest>, svc: LoginServices, options: AccountOptions)
    requires HasIdPHint(context)
    ensures !PromptEnablesLocalLogin(context, svc, options)
    ensures PromptProviders(context, svc, options) == [ExternalProvider(None, context.value.idP.value)]
    ensures ExternalOnly(PromptEnablesLocalLogin(context, svc, options), PromptProviders(context, svc, options))
    ensures PromptProviders(context, svc, options)[0].authenticationScheme == context.value.idP.value
    ensures Filter(PromptProviders(context, svc, options), HasVisibleName()) == []
  {
  }

  /** Without a hint: a provider is offered exactly when its scheme is listed
      and the client (if it restricts) allows it; scheme order is kept; local
      login is the client's flag (or true) and the global switch. */
  lemma PromptWithoutHint(context: Option<AuthorizationRequest>, svc: LoginServices, options: AccountOptions)
    requires !HasIdPHint(context)
    ensures var client := ResolveClient(context, svc);
      forall p :: p in PromptProviders(context, svc, options) <==>
        SchemeOf(p) in svc.schemes && IsListedScheme(SchemeOf(p), options.windowsAuthenticationSchemeName) &&
        (RestrictsProviders(client) ==> p.authenticationScheme in client.value.identityProviderRestrictions.value)
    ensures IsSubsequence(PromptProviders(context, svc, options), Map(svc.schemes, ToProvider))
    ensures PromptEnablesLocalLogin(context, svc, options) ==
      (AllowLocal(ResolveClient(context, svc)) && options.allowLocalLogin)
  {
    var all := ProvidersFromSchemes(svc.schemes, options.windowsAuthenticationSchemeName);
    var client := ResolveClient(context, svc);
    ProvidersFromSchemesExact(svc.schemes, options.windowsAuthenticationSchemeName);
    RestrictToClientExact(all, client);
    SubsequenceTransitive(RestrictToClient(all, client), all, Map(svc.schemes, ToProvider));
  }

  /** The no-hint half of building the prompt: the providers from the
      registered schemes, then the client's local-login flag and restrictions. */
  method SchemesAndClientPolicy(context: Option<AuthorizationRequest>, svc: LoginServices, options: AccountOptions)
    returns (providers: seq<ExternalProvider>, allowLocal: bool)
    requires !HasIdPHint(context)
    ensures providers == PromptProviders(context, svc, options)
    ensures (allowLocal && options.allowLocalLogin) == PromptEnablesLocalLogin(context, svc, options)
  {
    providers := ProvidersFromSchemes(svc.schemes, options.windowsAuthenticationSchemeName);
    allowLocal := true;
    if context.Some? && context.value.clientId.Some? {
      var client := svc.FindEnabledClient(context.value.clientId.value);
      if client.Some? {
        allowLocal := client.value.enableLocalLogin;
        if client.value.identityProviderRestrictions.Some? && |client.value.identityProviderRestrictions.value| > 0 {
          providers := Filter(providers, AllowedBy(client.value.identityProviderRestrictions.value));
        }
      }
    }
  }

  // ---------------------------------------------------------------------
  // the page

  class LoginInputModel {
    var Username: Option<string>
    var Password: Option<string>
    var RememberLogin: bool
    var ReturnUrl: Option<string>

    constructor ()
      ensures Username == None && Password == None && !RememberLogin && ReturnUrl == None
    {
      Username, Password, RememberLogin, ReturnUrl := None, None, false, None;
    }
  }

  class LoginModel {
    var ReturnUrl: Option<string>
    var AllowRememberLogin: bool
    var EnableLocalLogin: bool
    var ExternalProviders: seq<ExternalProvider>
    var Input: LoginInputModel
    /** The page's `ModelState` errors, binding errors included. */
    var ModelErrors: seq<ModelError>

    constructor ()
      ensures ReturnUrl == None && AllowRememberLogin && EnableLocalLogin && ExternalProviders == []
      ensures fresh(Input) && Input.Username == None && Input.Password == None
      ensures !Input.RememberLogin && Input.ReturnUrl == None
      ensures ModelErrors == []
    {
      ReturnUrl, AllowRememberLogin, EnableLocalLogin, ExternalProviders := None, true, true, [];
      Input := new LoginInputModel();
      ModelErrors := [];
    }

    predicate ModelStateIsValid()
      reads this
    {
      ModelErrors == []
    }

    /** The providers that have a display name worth showing. */
    function VisibleExternalProviders(): (r: seq<ExternalProvider>)
      reads this
      ensures forall p :: p in r <==> p in ExternalProviders && !IsNullOrWhiteSpace(p.displayName)
      ensures IsSubsequence(r, ExternalProviders)
    {
      FilterMembers(ExternalProviders, HasVisibleName());
      FilterIsSubsequence(ExternalProviders, HasVisibleName());
      Filter(ExternalProviders, HasVisibleName())
    }

    /** The only way in is one external provider. */
    function IsExternalLoginOnly(): (r: bool)
      reads this
      ensures r <==> !EnableLocalLogin && |ExternalProviders| == 1
    {
      ExternalOnly(EnableLocalLogin, ExternalProviders)
    }

    /** The one provider's scheme when the page is external-only, and null otherwise. */
    function ExternalLoginScheme(): (r: Option<string>)
      reads this
      ensures r.Some? <==> IsExternalLoginOnly()
      ensures r.Some? ==> r.value == ExternalProviders[0].authenticationScheme && ExternalProviders == [ExternalProviders[0]]
    {
      if IsExternalLoginOnly() then Some(ExternalProviders[0].authenticationScheme) else None
    }

    /** The prompt fields are those computed for `returnUrl`. */
    predicate ShowsPromptFor(returnUrl: Option<string>, svc: LoginServices, options: AccountOptions)
      reads this
    {
      var context := svc.AuthorizationContext(returnUrl);
      ReturnUrl == returnUrl &&
      EnableLocalLogin == PromptEnablesLocalLogin(context, svc, options) &&
      ExternalProviders == PromptProviders(context, svc, options)
    }

    /** The state the view model is built into for `returnUrl`: the prompt
        fields, and, without an `IdP` hint, the remember-me option and the
        input's return URL; with a hint those two keep their prior values. */
    predicate PromptStateFor(returnUrl: Option<string>, svc: LoginServices, options: AccountOptions,
                             priorAllowRememberLogin: bool, priorInputReturnUrl: Option<string>)
      reads this, Input
    {
      var context := svc.AuthorizationContext(returnUrl);
      ShowsPromptFor(returnUrl, svc, options) &&
      (HasIdPHint(context) ==>
         AllowRememberLogin == priorAllowRememberLogin && Input.ReturnUrl == priorInputReturnUrl) &&
      (!HasIdPHint(context) ==>
         AllowRememberLogin == options.allowRememberLogin && Input.ReturnUrl == returnUrl)
    }

    method BuildLoginViewModel(returnUrl: Option<string>, svc: LoginServices, options: AccountOptions)
      modifies this, Input
      ensures Input == old(Input) && ModelErrors == old(ModelErrors)
      ensures ShowsPromptFor(returnUrl, svc, options)
      ensures Input.Username == LoginHintOf(svc.AuthorizationContext(returnUrl))
      ensures Input.Password == old(Input.Password) && Input.RememberLogin == old(Input.RememberLogin)
      ensures HasIdPHint(svc.AuthorizationContext(returnUrl)) ==>
        AllowRememberLogin == old(AllowRememberLogin) && Input.ReturnUrl == old(Input.ReturnUrl)
      ensures !HasIdPHint(svc.AuthorizationContext(returnUrl)) ==>
        AllowRememberLogin == options.allowRememberLogin && Input.ReturnUrl == returnUrl
    {
      var context := svc.AuthorizationContext(returnUrl);
      if context.Some? && context.value.idP.Some? {
        EnableLocalLogin := false;
        ReturnUrl := returnUrl;
        Input.Username := LoginHintOf(context);
        ExternalProviders := [ExternalProvider(None, context.value.idP.value)];
        assert ShowsPromptFor(returnUrl, svc, options);
      } else {
        var providers, allowLocal := SchemesAndClientPolicy(context, svc, options);
        AllowRememberLogin := options.allowRememberLogin;
        EnableLocalLogin := allowLocal && options.allowLocalLogin;
        ReturnUrl := returnUrl;
        Input.ReturnUrl := returnUrl;
        Input.Username := LoginHintOf(context);
        ExternalProviders := providers;
        assert ShowsPromptFor(returnUrl, svc, options);
      }
    }

    /** The re-render overload AS WRITTEN: it reads `model.Username` only
        after the prompt has been rebuilt, and `OnPostAsync` passes `Input`
        itself, so the rebuild has already replaced the typed username with
        the request's login hint. */
    method BuildLoginViewModelFromInputAsWritten(model: LoginInputModel, svc: LoginServices, options: AccountOptions)
      modifies this, Input
      ensures Input == old(Input) && ModelErrors == old(ModelErrors)
      ensures ShowsPromptFor(old(model.ReturnUrl), svc, options)
      ensures Input.Username ==
        if model == Input then LoginHintOf(svc.AuthorizationContext(old(model.ReturnUrl)))
        else old(model.Username)
      ensures Input.RememberLogin == old(model.RememberLogin)
      ensures PromptStateFor(old(model.ReturnUrl), svc, options, old(AllowRememberLogin), old(Input.ReturnUrl))
      ensures Input.Password == old(Input.Password)
    {
      BuildLoginViewModel(model.ReturnUrl, svc, options);
      Input.Username := model.Username;
      Input.RememberLogin := model.RememberLogin;
    }

    /** The re-render overload with the evidently intended meaning: the prompt
        is rebuilt and the submitted username and remember-me choice survive. */
    method BuildLoginViewModelFromInput(model: LoginInputModel, svc: LoginServices, options: AccountOptions)
      modifies this, Input
      ensures Input == old(Input) && ModelErrors == old(ModelErrors)
      ensures ShowsPromptFor(old(model.ReturnUrl), svc, options)
      ensures Input.Username == old(model.Username) && Input.RememberLogin == old(model.RememberLogin)
      ensures Input.Password == old(Input.Password)
      ensures model == Input ==> Input.ReturnUrl == old(Input.ReturnUrl)
      ensures PromptStateFor(old(model.ReturnUrl), svc, options, old(AllowRememberLogin), old(Input.ReturnUrl))
    {
      var username, rememberLogin := model.Username, model.RememberLogin;
      BuildLoginViewModel(model.ReturnUrl, svc, options);
      Input.Username := username;
      Input.RememberLogin := rememberLogin;
    }

    /** GET: build the prompt, and go straight to the one external provider
        when that is the only way in. */
    method OnGetAsync(returnUrl: Option<string>, svc: LoginServices, options: AccountOptions) returns (r: ActionResult)
      modifies this, Input
      ensures Input == old(Input) && ModelErrors == old(ModelErrors)
      ensures ShowsPromptFor(returnUrl, svc, options)
      ensures PromptStateFor(returnUrl, svc, options, old(AllowRememberLogin), old(Input.ReturnUrl))
      ensures Input.Username == LoginHintOf(svc.AuthorizationContext(returnUrl))
      ensures Input.Password == old(Input.Password) && Input.RememberLogin == old(Input.RememberLogin)
      ensures IsExternalLoginOnly() ==>
        r == RedirectToPage(ExternalLoginPage, [RouteValue("provider", ExternalLoginScheme()), RouteValue("returnUrl", returnUrl)])
      ensures !IsExternalLoginOnly() ==> r == PageResult
      ensures r.RedirectToPage? ==> ExternalLoginScheme().Some? && ExternalProviders == [ExternalProviders[0]]
      // an `IdP` hint goes straight to that provider
      ensures var context := svc.AuthorizationContext(returnUrl);
        HasIdPHint(context) ==>
          r == RedirectToPage(ExternalLoginPage, [RouteValue("provider", context.value.idP), RouteValue("returnUrl", returnUrl)])
    {
      BuildLoginViewModel(returnUrl, svc, options);
      if IsExternalLoginOnly() {
        return RedirectToPage(ExternalLoginPage, [RouteValue("provider", ExternalLoginScheme()), RouteValue("returnUrl", returnUrl)]);
      }
      return PageResult;
    }

    /** POST of the login form. */
    method OnPostAsync(button: Option<string>, svc: LoginServices, options: AccountOptions, log: EffectLog)
      returns (r: HandlerResult)
      modifies this, Input, log
      ensures Input == old(Input) && Input.Password == old(Input.Password)
      // cancel: a denial for a pending request, home otherwise; nothing else happens
      ensures button != Some(LoginButton) ==>
        var context := svc.AuthorizationContext(old(Input.ReturnUrl));
        unchanged(this, Input) &&
        (context.Some? ==>
           r == Completed(Redirect(old(Input.ReturnUrl))) &&
           log.entries == old(log.entries) + [ConsentGranted(context.value, Denied)]) &&
        (context.None? ==> r == Completed(Redirect(Some(Home))) && log.entries == old(log.entries))
      // invalid form: no sign-in attempt, the prompt is shown again
      ensures button == Some(LoginButton) && !old(ModelStateIsValid()) ==>
        r == Completed(PageResult) && log.entries == old(log.entries) && ModelErrors == old(ModelErrors) &&
        Rerendered(old(Input.ReturnUrl), old(Input.Username), old(Input.RememberLogin), old(AllowRememberLogin), svc, options)
      ensures button == Some(LoginButton) && old(ModelStateIsValid()) ==>
        var attempt := PasswordSignIn(old(Input.Username), old(Input.Password), old(Input.RememberLogin), true);
        if svc.PasswordSignInResult(old(Input.Username), old(Input.Password), old(Input.RememberLogin)).Succeeded? then
          match svc.FindByName(old(Input.Username))
          case None =>
            r == Threw(NullReferenceException) && log.entries == old(log.entries) + [attempt] &&
            unchanged(this, Input)
          case Some(user) =>
            unchanged(this, Input) &&
            r == PostAuthenticationRedirect(svc.isLocalUrl, old(Input.ReturnUrl)) &&
            log.entries == old(log.entries) + [attempt, UserLoginSuccessEvent(user.userName, user.id, user.userName)]
        else
          r == Completed(PageResult) &&
          log.entries == old(log.entries) + [attempt, UserLoginFailureEvent(old(Input.Username), InvalidCredentialsReason)] &&
          ModelErrors == old(ModelErrors) + [ModelError("", options.invalidCredentialsErrorMessage)] &&
          Rerendered(old(Input.ReturnUrl), old(Input.Username), old(Input.RememberLogin), old(AllowRememberLogin), svc, options)
    {
      var context := svc.AuthorizationContext(Input.ReturnUrl);
      if button != Some(LoginButton) {
        if context.Some? {
          log.Append(ConsentGranted(context.value, Denied));
          return Completed(Redirect(Input.ReturnUrl));
        } else {
          return Completed(Redirect(Some(Home)));
        }
      }
      if ModelStateIsValid() {
        var result := svc.PasswordSignInResult(Input.Username, Input.Password, Input.RememberLogin);
        log.Append(PasswordSignIn(Input.Username, Input.Password, Input.RememberLogin, true));
        if result.Succeeded? {
          var user := svc.FindByName(Input.Username);
          if user.None? {
            return Threw(NullReferenceException);
          }
          log.Append(UserLoginSuccessEvent(user.value.userName, user.value.id, user.value.userName));
          return PostAuthenticationRedirect(svc.isLocalUrl, Input.ReturnUrl);
        }
        log.Append(UserLoginFailureEvent(Input.Username, InvalidCredentialsReason));
        ModelErrors := ModelErrors + [ModelError("", options.invalidCredentialsErrorMessage)];
      }
      BuildLoginViewModelFromInput(Input, svc, options);
      return Completed(PageResult);
    }

    /** The form is shown again for the submitted return URL, with the submitted
        username and remember-me choice. */
    predicate Rerendered(returnUrl: Option<string>, username: Option<string>, rememberLogin: bool,
                         priorAllowRememberLogin: bool, svc: LoginServices, options: AccountOptions)
      reads this, Input
    {
      PromptStateFor(returnUrl, svc, options, priorAllowRememberLogin, returnUrl) && Input.ReturnUrl == returnUrl &&
      Input.Username == username && Input.RememberLogin == rememberLogin
    }
  }

  /** A concrete run of the as-written re-render: the page's own input holds
      the submitted username "alice", there is no pending request, and the
      re-render called with that input leaves a null username. */
  method RerenderLosesTypedUsername() returns (typed: Option<string>, shown: Option<string>)
    ensures typed == Some("alice") && shown == None
  {
    var page := new LoginModel();
    page.Input.Username := Some("alice");
    var svc := LoginServices(
      Interaction(_ => None, _ => None, None),
      _ => None, [], (_, _, _) => Failed, _ => None, _ => false);
    var options := AccountOptions(true, true, true, false, "Windows", "Invalid username or password");
    typed := page.Input.Username;
    page.BuildLoginViewModelFromInputAsWritten(page.Input, svc, options);
    shown := page.Input.Username;
  }
}
