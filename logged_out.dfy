/** The logged-out page: the display data of the logout, the local sign-out,
    and the decision to sign out at the upstream identity provider as well. */
module LoggedOut {
  import opened Platform

  const LogoutAction: string := "Logout"

  /** The client shown to the user: its name, or its id when it has no name. */
  function DisplayedClientName(context: Option<LogoutRequest>): (r: Option<string>)
    ensures context.None? ==> r.None?
    ensures context.Some? && !IsNullOrEmpty(context.value.clientName) ==> r == context.value.clientName
    ensures context.Some? && IsNullOrEmpty(context.value.clientName) ==> r == context.value.clientId
  {
    if context.None? then None
    else if IsNullOrEmpty(context.value.clientName) then context.value.clientId
    else context.value.clientName
  }

  /** The upstream scheme to sign out at: set only for an authenticated user
      whose identity provider is recorded, is not the local one, and supports
      sign-out; and then it is that provider. */
  function ExternalSignOutScheme(user: Option<Principal>, supportsSignOut: string -> bool): (r: Option<string>)
    ensures r.Some? <==>
      IsAuthenticated(user) && user.value.identityProvider.Some? &&
      user.value.identityProvider.value != LocalIdentityProvider &&
      supportsSignOut(user.value.identityProvider.value)
    ensures r.Some? ==> r == user.value.identityProvider
  {
    if !IsAuthenticated(user) then None
    else
      var idp := user.value.identityProvider;
      if idp.None? || idp.value == LocalIdentityProvider then None
      else if supportsSignOut(idp.value) then idp
      else None
  }

  /** The effects of signing the local session out. */
  function SignOutEffects(user: Option<Principal>): seq<Effect> {
    if IsAuthenticated(user)
    then [SessionSignOut, UserLogoutSuccessEvent(user.value.subjectId, user.value.displayName)]
    else []
  }

  class LoggedOutModel {
    var LogoutId: Option<string>
    var PostLogoutRedirectUri: Option<string>
    var ClientName: Option<string>
    var SignOutIframeUrl: Option<string>
    var AutomaticRedirectAfterSignOut: bool
    var ExternalAuthenticationScheme: Option<string>

    constructor ()
      ensures LogoutId == None && PostLogoutRedirectUri == None && ClientName == None
      ensures SignOutIframeUrl == None && !AutomaticRedirectAfterSignOut && ExternalAuthenticationScheme == None
    {
      LogoutId, PostLogoutRedirectUri, ClientName, SignOutIframeUrl := None, None, None, None;
      AutomaticRedirectAfterSignOut, ExternalAuthenticationScheme := false, None;
    }

    /** An upstream sign-out is due exactly when a scheme has been chosen. */
    function TriggerExternalSignout(): (r: bool)
      reads this
      ensures r <==> ExternalAuthenticationScheme != None
    {
      ExternalAuthenticationScheme.Some?
    }

    /** The display fields are those of `context`. */
    predicate ShowsLogoutContext(context: Option<LogoutRequest>, options: AccountOptions)
      reads this
    {
      AutomaticRedirectAfterSignOut == options.automaticRedirectAfterSignOut &&
      PostLogoutRedirectUri == (if context.Some? then context.value.postLogoutRedirectUri else None) &&
      ClientName == DisplayedClientName(context) &&
      SignOutIframeUrl == (if context.Some? then context.value.signOutIFrameUrl else None)
    }

    method BuildLoggedOutViewModel(logoutId: Option<string>, user: Option<Principal>, interaction: Interaction,
                                   supportsSignOut: string -> bool, options: AccountOptions, log: EffectLog)
      modifies this, log
      ensures ShowsLogoutContext(interaction.LogoutContext(logoutId), options)
      ensures var scheme := ExternalSignOutScheme(user, supportsSignOut);
        (scheme.Some? ==> ExternalAuthenticationScheme == scheme) &&
        (scheme.None? ==> ExternalAuthenticationScheme == old(ExternalAuthenticationScheme)) &&
        // a logout id is created only for an upstream sign-out that has none yet
        (scheme.Some? && old(LogoutId).None? ==>
           LogoutId == interaction.createdLogoutId &&
           log.entries == old(log.entries) + [LogoutContextCreated(interaction.createdLogoutId)]) &&
        (scheme.None? || old(LogoutId).Some? ==> LogoutId == old(LogoutId) && log.entries == old(log.entries))
    {
      var context := interaction.LogoutContext(logoutId);
      AutomaticRedirectAfterSignOut := options.automaticRedirectAfterSignOut;
      PostLogoutRedirectUri := if context.Some? then context.value.postLogoutRedirectUri else None;
      ClientName := if context.None? || IsNullOrEmpty(context.value.clientName)
                    then (if context.Some? then context.value.clientId else None)
                    else context.value.clientName;
      SignOutIframeUrl := if context.Some? then context.value.signOutIFrameUrl else None;

      if IsAuthenticated(user) {
        var idp := user.value.identityProvider;
        if idp.Some? && idp.value != LocalIdentityProvider {
          var providerSupportsSignout := supportsSignOut(idp.value);
          if providerSupportsSignout {
            if LogoutId.None? {
              LogoutId := interaction.createdLogoutId;
              log.Append(LogoutContextCreated(LogoutId));
            }
            ExternalAuthenticationScheme := idp;
          }
        }
      }
    }

    /** GET: compute the view model from the identity still on the request,
        sign the local session out, then either sign out upstream with a
        callback to Logout carrying the logout id, or render the page. */
    method OnGet(logoutId: Option<string>, user: Option<Principal>, interaction: Interaction,
                 supportsSignOut: string -> bool, options: AccountOptions, log: EffectLog)
      returns (r: ActionResult)
      modifies this, log
      ensures ShowsLogoutContext(interaction.LogoutContext(logoutId), options)
      ensures var scheme := ExternalSignOutScheme(user, supportsSignOut);
        var created := if scheme.Some? && old(LogoutId).None? then [LogoutContextCreated(interaction.createdLogoutId)] else [];
        (scheme.Some? ==> ExternalAuthenticationScheme == scheme) &&
        (scheme.None? ==> ExternalAuthenticationScheme == old(ExternalAuthenticationScheme)) &&
        LogoutId == (if scheme.Some? && old(LogoutId).None? then interaction.createdLogoutId else old(LogoutId)) &&
        log.entries == old(log.entries) + created + SignOutEffects(user)
      ensures TriggerExternalSignout() ==>
        r == SignOut(ActionRoute(LogoutAction, [RouteValue("logoutId", LogoutId)]), ExternalAuthenticationScheme.value)
      ensures !TriggerExternalSignout() ==> r == PageResult
    {
      BuildLoggedOutViewModel(logoutId, user, interaction, supportsSignOut, options, log);

      if IsAuthenticated(user) {
        log.Append(SessionSignOut);
        log.Append(UserLogoutSuccessEvent(user.value.subjectId, user.value.displayName));
      }

      if TriggerExternalSignout() {
        var url := ActionRoute(LogoutAction, [RouteValue("logoutId", LogoutId)]);
        return SignOut(url, ExternalAuthenticationScheme.value);
      }
      return PageResult;
    }
  }

  /** One request to the logged-out page on a fresh page model: an upstream
      sign-out happens exactly when the request's identity calls for one, it
      then has a logout id (the bound one, or a created one), and an
      authenticated user is signed out locally with one logout event. */
  method ServeLoggedOut(boundLogoutId: Option<string>, logoutId: Option<string>, user: Option<Principal>,
                        interaction: Interaction, supportsSignOut: string -> bool, options: AccountOptions)
    returns (r: ActionResult, effects: seq<Effect>)
    ensures var scheme := ExternalSignOutScheme(user, supportsSignOut);
      var id := if boundLogoutId.None? && scheme.Some? then interaction.createdLogoutId else boundLogoutId;
      (r.SignOut? <==> scheme.Some?) &&
      (scheme.Some? ==> r == SignOut(ActionRoute(LogoutAction, [RouteValue("logoutId", id)]), scheme.value)) &&
      (scheme.None? ==> r == PageResult) &&
      effects == (if scheme.Some? && boundLogoutId.None? then [LogoutContextCreated(interaction.createdLogoutId)] else [])
                 + SignOutEffects(user)
  {
    var page := new LoggedOutModel();
    page.LogoutId := boundLogoutId;
    var log := new EffectLog();
    r := page.OnGet(logoutId, user, interaction, supportsSignOut, options, log);
    effects := log.entries;
  }
}
