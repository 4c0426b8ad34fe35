/** The logout page: whether the user is asked to confirm signing out, and the
    hand-off to the logged-out page. */
module Logout {
  import opened Platform

  const LoggedOutPage: string := "./LoggedOut"

  /** The hand-off to the logged-out page, carrying the logout id. */
  function LoggedOutRedirect(logoutId: Option<string>): ActionResult {
    RedirectToPage(LoggedOutPage, [RouteValue("logoutId", logoutId)])
  }

  /** The logout request explicitly says that no prompt is needed. */
  predicate SaysNoPrompt(context: Option<LogoutRequest>) {
    context.Some? && !context.value.showSignoutPrompt
  }

  /** Every later value is false once an earlier one is: a prompt once switched
      off is never switched back on. */
  ghost predicate NeverReenabled(history: seq<bool>) {
    forall i, j :: 0 <= i < j < |history| && history[j] ==> history[i]
  }

  class LogoutModel {
    var LogoutId: Option<string>
    var ShowLogoutPrompt: bool
    /** Every value `ShowLogoutPrompt` has been given while building the view model, in order. */
    ghost var PromptHistory: seq<bool>

    constructor ()
      ensures LogoutId == None && !ShowLogoutPrompt && PromptHistory == []
    {
      LogoutId, ShowLogoutPrompt := None, false;
      PromptHistory := [];
    }

    method BuildLogoutViewModel(logoutId: Option<string>, user: Option<Principal>, interaction: Interaction, options: AccountOptions)
      modifies this
      ensures LogoutId == logoutId
      ensures ShowLogoutPrompt ==
        (options.showLogoutPrompt && IsAuthenticated(user) && !SaysNoPrompt(interaction.LogoutContext(logoutId)))
      ensures |PromptHistory| > 0 && PromptHistory[0] == options.showLogoutPrompt
      ensures PromptHistory[|PromptHistory| - 1] == ShowLogoutPrompt && NeverReenabled(PromptHistory)
    {
      LogoutId := logoutId;
      ShowLogoutPrompt := options.showLogoutPrompt;
      PromptHistory := [ShowLogoutPrompt];

      if !IsAuthenticated(user) {
        ShowLogoutPrompt := false;
        PromptHistory := PromptHistory + [ShowLogoutPrompt];
      }

      var context := interaction.LogoutContext(logoutId);
      if SaysNoPrompt(context) {
        ShowLogoutPrompt := false;
        PromptHistory := PromptHistory + [ShowLogoutPrompt];
      }
    }

    /** GET: build the view model; without a prompt, proceed exactly as the POST does. */
    method OnGet(user: Option<Principal>, interaction: Interaction, options: AccountOptions) returns (r: ActionResult)
      modifies this
      ensures LogoutId == old(LogoutId)
      ensures ShowLogoutPrompt ==
        (options.showLogoutPrompt && IsAuthenticated(user) && !SaysNoPrompt(interaction.LogoutContext(old(LogoutId))))
      ensures NeverReenabled(PromptHistory)
      ensures !ShowLogoutPrompt ==> r == LoggedOutRedirect(LogoutId)
      ensures ShowLogoutPrompt ==> r == PageResult
    {
      BuildLogoutViewModel(LogoutId, user, interaction, options);
      if !ShowLogoutPrompt {
        r := OnPost();
        return;
      }
      return PageResult;
    }

    /** POST: always on to the logged-out page with the same logout id. */
    method OnPost() returns (r: ActionResult)
      ensures r.RedirectToPage? && r.page == LoggedOutPage
      ensures r.values == [RouteValue("logoutId", LogoutId)]
    {
      return LoggedOutRedirect(LogoutId);
    }
  }

  /** An unauthenticated caller is never asked to confirm, whatever the
      logout request and the configuration say. */
  method UnauthenticatedNeverPrompted(logoutId: Option<string>, user: Option<Principal>, interaction: Interaction, options: AccountOptions)
    returns (shown: bool, r: ActionResult)
    requires !IsAuthenticated(user)
    ensures !shown && r == LoggedOutRedirect(logoutId)
  {
    var page := new LogoutModel();
    page.LogoutId := logoutId;
    r := page.OnGet(user, interaction, options);
    shown := page.ShowLogoutPrompt;
  }
}
