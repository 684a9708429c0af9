/** The login page's submit handler: it posts the credentials and admits the
    reply only when it carries a token and a user whose role is ADMIN; every
    other outcome ends with an error message on the form. The request itself
    is not modelled: its outcome is an input. */
module LoginPage {
  import opened Wrappers
  import opened Js
  import opened Browser
  import opened AuthContext

  /** How `POST /auth/login` ended: a reply whose (unwrapped) body holds
      `accessToken` and `user`, or a rejection with the server's
      `response.data.message` and the error's own `message` (None: undefined). */
  datatype LoginOutcome =
    | Replied(accessToken: Option<string>, user: Option<User>)
    | Failed(serverMessage: Option<string>, message: Option<string>)

  /** The body posted to `/auth/login`. */
  datatype Credentials = Credentials(email: string, password: string)

  const NoTokenMessage: string := "No access token received from server"
  const NoUserMessage: string := "No user data received from server"
  const AccessDeniedMessage: string := "Access denied. Only Admins can access this portal."
  const InvalidCredentialsMessage: string := "Invalid credentials"
  const AdminRole: string := "ADMIN"

  /** The reply is let in: a truthy token, a user, and that user is an ADMIN. */
  predicate Admits(outcome: LoginOutcome)
    ensures Admits(outcome) ==> outcome.Replied? && outcome.accessToken.Some? && outcome.accessToken.value != ""
    ensures Admits(outcome) ==> outcome.user.Some? && outcome.user.value.role == "ADMIN"
  {
    outcome.Replied? && Truthy(outcome.accessToken) && outcome.user.Some? &&
    outcome.user.value.role == AdminRole
  }

  /** The catch block's choice: the server's message, else the error's
      message, else "Invalid credentials". */
  function CaughtMessage(serverMessage: Option<string>, message: Option<string>): (r: string)
    ensures r != ""
    ensures Truthy(serverMessage) ==> r == serverMessage.value
    ensures !Truthy(serverMessage) && Truthy(message) ==> r == message.value
    ensures !Truthy(serverMessage) && !Truthy(message) ==> r == InvalidCredentialsMessage
  {
    var xs := [serverMessage, message];
    if Truthy(serverMessage) then
      FirstTruthyAt(xs, 0);
      FirstTruthy(xs).value
    else if Truthy(message) then
      FirstTruthyAt(xs, 1);
      FirstTruthy(xs).value
    else
      FirstTruthy(xs).GetOr(InvalidCredentialsMessage)
  }

  /** The error the form shows once the submit has finished ("" when the user
      was logged in). The checks run in order: token, user, role. A missing
      token or user is thrown and caught without a server response, so its own
      message is shown. */
  function SubmitError(outcome: LoginOutcome): (r: string)
    ensures r == "" <==> Admits(outcome)
    ensures outcome.Replied? && !Truthy(outcome.accessToken) ==> r == NoTokenMessage
    ensures outcome.Replied? && Truthy(outcome.accessToken) && outcome.user.None? ==> r == NoUserMessage
    ensures outcome.Replied? && Truthy(outcome.accessToken) && outcome.user.Some? && outcome.user.value.role != AdminRole ==>
      r == AccessDeniedMessage
    ensures outcome.Failed? ==> r == CaughtMessage(outcome.serverMessage, outcome.message)
  {
    match outcome
    case Failed(serverMessage, message) => CaughtMessage(serverMessage, message)
    case Replied(accessToken, user) =>
      if !Truthy(accessToken) then CaughtMessage(None, Some(NoTokenMessage))
      else if user.None? then CaughtMessage(None, Some(NoUserMessage))
      else if user.value.role != AdminRole then AccessDeniedMessage
      else ""
  }

  /** A reply without a token is refused for the token, whatever its user. */
  lemma MissingTokenReportedFirst(user: Option<User>)
    ensures SubmitError(Replied(None, user)) == NoTokenMessage
    ensures SubmitError(Replied(Some(""), user)) == NoTokenMessage
  {
  }

  /** A non-admin is refused even with a valid token, and is never logged in. */
  lemma NonAdminRefused(token: string, u: User)
    requires token != "" && u.role != AdminRole
    ensures !Admits(Replied(Some(token), Some(u)))
    ensures SubmitError(Replied(Some(token), Some(u))) == AccessDeniedMessage
  {
  }

  class LoginPageState {
    var email: string
    var password: string
    var isLoading: bool
    var error: string

    /** The page opens with empty fields, no error and no spinner. */
    constructor ()
      ensures email == "" && password == "" && !isLoading && error == ""
    {
      email := "";
      password := "";
      isLoading := false;
      error := "";
    }

    /** The start of `handleSubmit`: the spinner is on and the old error is
        cleared; the credentials typed so far are what is posted. */
    method BeginSubmit() returns (posted: Credentials)
      modifies this
      ensures isLoading && error == ""
      ensures email == old(email) && password == old(password)
      ensures posted == Credentials(email, password)
    {
      isLoading := true;
      error := "";
      posted := Credentials(email, password);
    }

    /** The rest of `handleSubmit`, once the request has ended: an admitted
        reply logs the user in; anything else sets the error. The spinner is
        off in every case. */
    method FinishSubmit(outcome: LoginOutcome, auth: AuthProvider, stringify: User -> string)
      requires error == ""
      modifies this, auth, auth.window
      ensures !isLoading
      ensures error == SubmitError(outcome)
      ensures email == old(email) && password == old(password)
      ensures Admits(outcome) ==>
        auth.State() == LoggedIn(old(auth.State()), outcome.accessToken.value, outcome.user.value, stringify) &&
        auth.window.pathname == "/"
      ensures !Admits(outcome) ==>
        auth.user == old(auth.user) && auth.window.cookies == old(auth.window.cookies) &&
        auth.window.pathname == old(auth.window.pathname)
      ensures auth.loading == old(auth.loading)
    {
      match outcome {
        case Failed(serverMessage, message) =>
          error := CaughtMessage(serverMessage, message);
        case Replied(accessToken, user) =>
          if !Truthy(accessToken) {
            error := CaughtMessage(None, Some(NoTokenMessage));
          } else if user.None? {
            error := CaughtMessage(None, Some(NoUserMessage));
          } else if user.value.role != AdminRole {
            error := AccessDeniedMessage;
            isLoading := false;
          } else {
            auth.Login(accessToken.value, user.value, stringify);
          }
      }
      isLoading := false;
    }

    /** The whole handler: the user is logged in exactly when the reply is
        admitted, and the form's error is empty exactly then. */
    method HandleSubmit(outcome: LoginOutcome, auth: AuthProvider, stringify: User -> string) returns (posted: Credentials)
      modifies this, auth, auth.window
      ensures posted == Credentials(old(email), old(password))
      ensures email == old(email) && password == old(password) && auth.loading == old(auth.loading)
      ensures !isLoading
      ensures error == SubmitError(outcome)
      ensures error == "" <==> Admits(outcome)
      ensures Admits(outcome) ==>
        auth.State() == LoggedIn(old(auth.State()), outcome.accessToken.value, outcome.user.value, stringify) &&
        auth.window.pathname == "/"
      ensures !Admits(outcome) ==>
        auth.user == old(auth.user) && auth.window.cookies == old(auth.window.cookies) &&
        auth.window.pathname == old(auth.window.pathname)
    {
      posted := BeginSubmit();
      FinishSubmit(outcome, auth, stringify);
    }
  }
}
