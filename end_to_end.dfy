/**
 * Properties that connect the client and the server: the form validators
 * against the signup guard, and the server's error bodies against the error
 * messages the client selects. An error response reaches the client as an
 * axios `HttpError` carrying the status and the body's `message` field.
 */
module EndToEnd {
  import opened Wrappers
  import opened JsText
  import opened Users
  import opened Http
  import opened EmailFormat
  import SignupPage
  import LoginPage
  import AuthController
  import AuthStore

  /** What the client's axios sees for an error response. */
  function AsAxiosError(res: Response): (e: AuthStore.AxiosError)
    ensures e.HttpError? && e.status == res.status
    ensures res.body.MessageBody? <==> e.message.Some?
  {
    AuthStore.HttpError(res.status, MessageField(res.body))
  }

  /** Any password the signup page accepts also passes the backend's length check (8 code units is more than 6). */
  lemma SignupFormPassesBackendGuard(fullName: string, email: string, password: string)
    requires SignupPage.ValidateForm(fullName, email, password).Accepted?
    ensures AuthController.SignupGuard(Some(fullName), Some(email), Some(password)).None?
  {
    assert fullName != "" && email != "" && password != "";
  }

  /**
   * With a non-blank name the signup page decides like the login page, except
   * that it refuses passwords shorter than eight code units that login accepts.
   */
  lemma SignupIsLoginPlusLength(fullName: string, email: string, password: string)
    requires !IsBlank(fullName)
    ensures SignupPage.ValidateForm(fullName, email, password) == LoginPage.ValidateForm(email, password)
            || (LoginPage.ValidateForm(email, password).Accepted? && JsLength(password) < SignupPage.MinPasswordLength
                && SignupPage.ValidateForm(fullName, email, password) == Refused("Password must be at least 8 characters"))
  {
    if !IsBlank(email) && MatchesPattern(email) && !IsBlank(password) {
      assert LoginPage.ValidateForm(email, password).Accepted?;
    }
  }

  /**
   * Every refused signup answers with a non-empty `message`, so the client's
   * toast shows the server's own text rather than a status text.
   */
  lemma SignupErrorsShowServerText(users: seq<User>, fullName: Option<string>, email: Option<string>,
                                   password: Option<string>, hasher: string -> Option<string>,
                                   newId: ObjectId, now: int, lookupOk: bool, writeOk: bool)
    requires AuthController.SignupStep(users, fullName, email, password, hasher, newId, now, lookupOk, writeOk).res.status != 201
    ensures var res := AuthController.SignupStep(users, fullName, email, password, hasher, newId, now, lookupOk, writeOk).res;
            res.body.MessageBody? && AuthStore.SignupErrorMessage(AsAxiosError(res)) == res.body.message
  {
  }

  /**
   * Every refused login answers with a non-empty `message`, so the client's
   * toast shows the server's own text.
   */
  lemma LoginErrorsShowServerText(users: seq<User>, email: string, password: Option<string>,
                                  verify: (string, string) -> bool, lookupOk: bool)
    requires AuthController.Login(users, email, password, verify, lookupOk).status != 200
    ensures var res := AuthController.Login(users, email, password, verify, lookupOk);
            res.body.MessageBody? && AuthStore.LoginErrorMessage(AsAxiosError(res)) == res.body.message
  {
  }

  /**
   * Because the server always sends a message, the client's status texts for
   * a bare 409 (signup) and 401 (login) are never shown for these two routes.
   */
  lemma StatusTextsAreUnreachable(users: seq<User>, email: string, password: Option<string>,
                                  verify: (string, string) -> bool, lookupOk: bool,
                                  fullName: Option<string>, signupEmail: Option<string>, signupPassword: Option<string>,
                                  hasher: string -> Option<string>, newId: ObjectId, now: int,
                                  signupLookupOk: bool, writeOk: bool)
    requires AuthController.Login(users, email, password, verify, lookupOk).status != 200
    requires AuthController.SignupStep(users, fullName, signupEmail, signupPassword, hasher, newId, now,
                                       signupLookupOk, writeOk).res.status != 201
    ensures AuthStore.LoginErrorMessage(AsAxiosError(AuthController.Login(users, email, password, verify, lookupOk)))
            != "Unauthorized. Please check your credentials."
    ensures AuthStore.SignupErrorMessage(AsAxiosError(AuthController.SignupStep(users, fullName, signupEmail, signupPassword,
                                                                                hasher, newId, now, signupLookupOk, writeOk).res))
            != "Email already exists. Please use a different email."
  {
    LoginErrorsShowServerText(users, email, password, verify, lookupOk);
    SignupErrorsShowServerText(users, fullName, signupEmail, signupPassword, hasher, newId, now, signupLookupOk, writeOk);
  }
}
