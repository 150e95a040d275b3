/** The sign-in form (`src/app/login/page.tsx`): field updates, the
    required-field check, and the two-stage attempt that tries the admin
    endpoint for the configured admin address and otherwise, or when that
    attempt is refused, the regular user endpoint. */
module Login {
  import opened Common
  import opened Browser
  import opened AuthForms

  /** The two endpoints the form may call. */
  datatype Endpoint = AdminLoginEndpoint | UserLoginEndpoint

  /** How a sign-in attempt ends. */
  datatype LoginResult = AdminSignedIn(session: AuthSession) | UserSignedIn(session: AuthSession) | LoginFailed(message: string)

  /** The one address for which the admin endpoint is tried first. The page
      fixes it in its code; the model leaves it a configuration value, since
      nothing proved here depends on which address it is. */
  const AdminEmail: string

  /** The endpoints called, in order, and how the attempt ended. */
  datatype LoginRun = LoginRun(calls: seq<Endpoint>, result: LoginResult)

  /** The text a refused user login shows when the backend gives no
      `detail`. */
  const UserLoginFallback: string := "Invalid email or password"

  /** The regular user login: an ok reply signs the user in; a refusal shows
      the backend's non-empty `detail`, else "Invalid email or password"; an
      exception shows its own message. */
  function UserLogin(reply: Reply<AuthSession>): (r: LoginResult)
    ensures r.UserSignedIn? <==> reply.Ok?
    ensures reply.Ok? ==> r.session == reply.body
    ensures !reply.Ok? ==> r == LoginFailed(FailureText(reply, UserLoginFallback))
  {
    if reply.Ok? then UserSignedIn(reply.body) else LoginFailed(FailureText(reply, UserLoginFallback))
  }

  /** The `try` block of `handleSubmit`. The admin endpoint is called only for
      the admin address; its refusal falls through to the user login, while
      an exception there ends the attempt. */
  function LoginAttempt(email: string, adminReply: Reply<AuthSession>, userReply: Reply<AuthSession>): (r: LoginRun)
    ensures (AdminLoginEndpoint in r.calls) <==> email == AdminEmail
    ensures r.result.AdminSignedIn? <==> email == AdminEmail && adminReply.Ok?
    ensures email != AdminEmail ==> r == LoginRun([UserLoginEndpoint], UserLogin(userReply))
    ensures email == AdminEmail && adminReply.NotOk? ==>
              r == LoginRun([AdminLoginEndpoint, UserLoginEndpoint], UserLogin(userReply))
    ensures email == AdminEmail && adminReply.Ok? ==>
              r == LoginRun([AdminLoginEndpoint], AdminSignedIn(adminReply.body))
    ensures email == AdminEmail && adminReply.Threw? ==>
              r == LoginRun([AdminLoginEndpoint], LoginFailed(adminReply.message))
  {
    if email == AdminEmail then
      match adminReply
      case Ok(session) => LoginRun([AdminLoginEndpoint], AdminSignedIn(session))
      case Threw(message) => LoginRun([AdminLoginEndpoint], LoginFailed(message))
      case NotOk(_, _) => LoginRun([AdminLoginEndpoint, UserLoginEndpoint], UserLogin(userReply))
    else
      LoginRun([UserLoginEndpoint], UserLogin(userReply))
  }

  /** For any address but the admin one, the admin endpoint's reply cannot
      influence the attempt. */
  lemma AdminReplyOnlyMattersForAdmin(email: string, a1: Reply<AuthSession>, a2: Reply<AuthSession>, userReply: Reply<AuthSession>)
    ensures email != AdminEmail ==> LoginAttempt(email, a1, userReply) == LoginAttempt(email, a2, userReply)
  {
  }

  class LoginForm {
    var formData: map<string, string>
    var loading: bool
    var error: string

    constructor ()
      ensures formData == EmptyCredentials && !loading && error == ""
    {
      formData := EmptyCredentials;
      loading := false;
      error := "";
    }

    /** `handleChange`: only the input that fired the event changes. */
    method HandleChange(name: string, value: string)
      modifies this`formData
      ensures formData == WithField(old(formData), name, value)
    {
      formData := WithField(formData, name, value);
    }

    /** `handleSubmit` up to the first request: loading starts and the error
        is cleared; missing credentials then set their message and end
        loading, and nothing is sent; otherwise the body both endpoints
        receive is built. */
    method BeginSubmit() returns (request: Option<Credentials>)
      modifies this`loading, this`error
      ensures request.Some? <==> !CredentialsMissing(formData)
      ensures request.None? ==> !loading && error == CredentialsRequiredMessage
      ensures request.Some? ==> request.value == CredentialsOf(formData) && loading && error == ""
    {
      loading := true;
      error := "";
      if CredentialsMissing(formData) {
        error := CredentialsRequiredMessage;
        loading := false;
        return None;
      }
      request := Some(CredentialsOf(formData));
    }

    /** `handleSubmit` from the first request on, the replies of both
        endpoints given: the endpoints called are reported in order; an admin
        sign-in stores `admin` and `admin_token` and goes to the admin
        dashboard, a user sign-in stores `user` and `token` and goes to the
        dashboard, a failure sets the error; loading ends on every path. */
    method CompleteSubmit(adminReply: Reply<AuthSession>, userReply: Reply<AuthSession>, window: Window) returns (calls: seq<Endpoint>)
      modifies this`loading, this`error, window
      ensures !loading
      ensures var run := LoginAttempt(FieldValue(formData, "email"), adminReply, userReply);
        && calls == run.calls
        && (run.result.AdminSignedIn? ==>
              && error == old(error)
              && window.localStorage == old(window.localStorage)["admin" := run.result.session.profile]["admin_token" := run.result.session.accessToken]
              && window.location == "/admin/dashboard")
        && (run.result.UserSignedIn? ==>
              && error == old(error)
              && window.localStorage == old(window.localStorage)["user" := run.result.session.profile]["token" := run.result.session.accessToken]
              && window.location == "/dashboard")
        && (run.result.LoginFailed? ==> error == run.result.message && unchanged(window))
    {
      calls := [];
      if FieldValue(formData, "email") == AdminEmail {
        calls := calls + [AdminLoginEndpoint];
        match adminReply {
          case Ok(session) =>
            window.SetItem("admin", session.profile);
            window.SetItem("admin_token", session.accessToken);
            window.Navigate("/admin/dashboard");
            loading := false;
            return;
          case Threw(message) =>
            error := message;
            loading := false;
            return;
          case NotOk(_, _) =>
        }
      }
      calls := calls + [UserLoginEndpoint];
      match userReply {
        case Ok(session) =>
          window.SetItem("user", session.profile);
          window.SetItem("token", session.accessToken);
          window.Navigate("/dashboard");
        case _ =>
          error := FailureText(userReply, UserLoginFallback);
      }
      loading := false;
    }

    /** The whole of `handleSubmit`: missing credentials call nothing;
        loading is false on every exit. */
    method HandleSubmit(adminReply: Reply<AuthSession>, userReply: Reply<AuthSession>, window: Window) returns (calls: seq<Endpoint>)
      modifies this`loading, this`error, window
      ensures !loading
      ensures CredentialsMissing(formData) ==> calls == [] && error == CredentialsRequiredMessage && unchanged(window)
      ensures !CredentialsMissing(formData) ==>
        var run := LoginAttempt(FieldValue(formData, "email"), adminReply, userReply);
        && calls == run.calls
        && (!run.result.LoginFailed? ==> error == "")
        && (run.result.AdminSignedIn? ==>
              && window.localStorage == old(window.localStorage)["admin" := run.result.session.profile]["admin_token" := run.result.session.accessToken]
              && window.location == "/admin/dashboard")
        && (run.result.UserSignedIn? ==>
              && window.localStorage == old(window.localStorage)["user" := run.result.session.profile]["token" := run.result.session.accessToken]
              && window.location == "/dashboard")
        && (run.result.LoginFailed? ==> error == run.result.message && unchanged(window))
    {
      var request := BeginSubmit();
      if request.Some? {
        calls := CompleteSubmit(adminReply, userReply, window);
      } else {
        calls := [];
      }
    }
  }
}
