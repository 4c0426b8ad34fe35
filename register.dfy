/** The registration page: create the user, sign them in and follow the
    return URL under the same rule as login, or report every error the user
    store gave. */
module Register {
  import opened Platform
  import opened ReturnUrls

  /** The collaborators the registration page consults. `newUserId` is the id
      a new `ApplicationUser` is given on construction. */
  datatype RegisterServices = RegisterServices(
    createUser: (ApplicationUser, Option<string>) -> IdentityResult,
    newUserId: string,
    isLocalUrl: Option<string> -> bool)

  /** One model error, under the empty key, per store error, in order. */
  function ModelErrorsFor(errors: seq<IdentityError>): (r: seq<ModelError>)
    ensures |r| == |errors|
    ensures forall k :: 0 <= k < |errors| ==> r[k] == ModelError("", errors[k].description)
  {
    if errors == [] then []
    else ModelErrorsFor(errors[..|errors| - 1]) + [ModelError("", errors[|errors| - 1].description)]
  }

  /** The account a registration creates: the email is also the user name. */
  function NewUser(email: Option<string>, id: string): ApplicationUser {
    ApplicationUser(id, email, email)
  }

  class RegisterInputModel {
    var Email: Option<string>
    var Password: Option<string>

    constructor ()
      ensures Email == None && Password == None
    {
      Email, Password := None, None;
    }
  }

  class RegisterModel {
    var ReturnUrl: Option<string>
    var Input: RegisterInputModel
    /** The page's `ModelState` errors, binding errors included. */
    var ModelErrors: seq<ModelError>

    constructor ()
      ensures ReturnUrl == None && fresh(Input) && Input.Email == None && Input.Password == None
      ensures ModelErrors == []
    {
      ReturnUrl := None;
      Input := new RegisterInputModel();
      ModelErrors := [];
    }

    predicate ModelStateIsValid()
      reads this
    {
      ModelErrors == []
    }

    method OnGet(returnUrl: Option<string>)
      modifies this
      ensures ReturnUrl == returnUrl && Input == old(Input) && ModelErrors == old(ModelErrors)
    {
      ReturnUrl := returnUrl;
    }

    method OnPostAsync(returnUrl: Option<string>, svc: RegisterServices, log: EffectLog) returns (r: HandlerResult)
      modifies this, log
      ensures ReturnUrl == returnUrl && Input == old(Input)
      // an invalid form creates nobody and is shown again
      ensures !old(ModelStateIsValid()) ==>
        r == Completed(PageResult) && log.entries == old(log.entries) && ModelErrors == old(ModelErrors)
      ensures old(ModelStateIsValid()) ==>
        var user := NewUser(Input.Email, svc.newUserId);
        var result := svc.createUser(user, Input.Password);
        if result.succeeded then
          // signed in, one login event, then the return-URL rule
          log.entries == old(log.entries) +
            [CreateUser(user, Input.Password), SessionSignIn(user, false),
             UserLoginSuccessEvent(user.userName, user.id, user.userName)] &&
          r == PostAuthenticationRedirect(svc.isLocalUrl, returnUrl) &&
          ModelErrors == old(ModelErrors)
        else
          // every store error becomes a model error, in order, and the form is shown again
          log.entries == old(log.entries) + [CreateUser(user, Input.Password)] &&
          r == Completed(PageResult) &&
          ModelErrors == old(ModelErrors) + ModelErrorsFor(result.errors)
    {
      ReturnUrl := returnUrl;

      if ModelStateIsValid() {
        var user := NewUser(Input.Email, svc.newUserId);
        var result := svc.createUser(user, Input.Password);
        log.Append(CreateUser(user, Input.Password));

        if result.succeeded {
          log.Append(SessionSignIn(user, false));
          log.Append(UserLoginSuccessEvent(user.userName, user.id, user.userName));
          return PostAuthenticationRedirect(svc.isLocalUrl, ReturnUrl);
        }

        var i := 0;
        while i < |result.errors|
          invariant 0 <= i <= |result.errors|
          invariant ModelErrors == old(ModelErrors) + ModelErrorsFor(result.errors[..i])
          invariant ReturnUrl == returnUrl && Input == old(Input)
          invariant log.entries == old(log.entries) + [CreateUser(user, Input.Password)]
        {
          assert result.errors[..i + 1][..i] == result.errors[..i];
          ModelErrors := ModelErrors + [ModelError("", result.errors[i].description)];
          i := i + 1;
        }
        assert result.errors[..i] == result.errors;
      }

      return Completed(PageResult);
    }
  }
}
