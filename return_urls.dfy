/** The rule both the login and the registration page apply to the return URL
    once a user has been authenticated: follow it only when it is local, go
    home when there is none, and otherwise refuse to redirect at all. */
module ReturnUrls {
  import opened Platform

  const InvalidReturnUrl: Exception := GenericException("invalid return URL")

  /** `isLocalUrl` stands for `Url.IsLocalUrl`, whose definition is not part
      of this model; it is consulted before the empty check, as in the source. */
  function PostAuthenticationRedirect(isLocalUrl: Option<string> -> bool, returnUrl: Option<string>): (r: HandlerResult)
    // the handler completes exactly when the URL is local or absent
    ensures r.Completed? <==> isLocalUrl(returnUrl) || IsNullOrEmpty(returnUrl)
    // and then it always redirects, never renders
    ensures r.Completed? ==> r.action.Redirect?
    // no open redirect: the only targets are a local return URL and the root
    ensures r.Completed? ==> (isLocalUrl(r.action.url) && r.action.url == returnUrl) || r.action.url == Some(Home)
    ensures r.Completed? && isLocalUrl(returnUrl) ==> r.action.url == returnUrl
    ensures r.Threw? ==> r.error == InvalidReturnUrl
  {
    if isLocalUrl(returnUrl) then Completed(Redirect(returnUrl))
    else if IsNullOrEmpty(returnUrl) then Completed(Redirect(Some(Home)))
    else Threw(InvalidReturnUrl)
  }
}
