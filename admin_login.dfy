/** The admin sign-in form (`src/app/admin/login/page.tsx`): field updates,
    the required-field check and the outcome of the admin login call. */
module AdminLogin {
  import opened Common
  import opened Browser
  import opened AuthForms

  /** The text a refused admin sign-in shows when the backend gives no
      `detail`. */
  const AdminLoginFallback: string := "Invalid admin credentials"

  class AdminLoginForm {
    var formData: map<string, string>
    var loading: bool
    var error: string

    constructor ()
      ensures formData == EmptyCredentials && !loading && error == ""
    {
      formData := EmptyCredentials;
      loading := false;
      error := "";
    }

    /** `handleChange`: only the input that fired the event changes. */
    method HandleChange(name: string, value: string)
      modifies this`formData
      ensures formData == WithField(old(formData), name, value)
    {
      formData := WithField(formData, name, value);
    }

    /** `handleSubmit` up to the request: loading starts and the error is
        cleared; missing credentials then set their message and end loading,
        and nothing is sent. */
    method BeginSubmit() returns (request: Option<Credentials>)
      modifies this`loading, this`error
      ensures request.Some? <==> !CredentialsMissing(formData)
      ensures request.None? ==> !loading && error == CredentialsRequiredMessage
      ensures request.Some? ==> request.value == CredentialsOf(formData) && loading && error == ""
    {
      loading := true;
      error := "";
      if CredentialsMissing(formData) {
        error := CredentialsRequiredMessage;
        loading := false;
        return None;
      }
      request := Some(CredentialsOf(formData));
    }

    /** `handleSubmit` after the request: an ok reply stores `admin` and
        `admin_token` and goes to the admin dashboard; any other reply sets
        the error and leaves the browser alone; loading ends either way. */
    method CompleteSubmit(reply: Reply<AuthSession>, window: Window)
      modifies this`loading, this`error, window
      ensures !loading
      ensures reply.Ok? ==>
        && error == old(error)
        && window.localStorage == old(window.localStorage)["admin" := reply.body.profile]["admin_token" := reply.body.accessToken]
        && window.location == "/admin/dashboard"
      ensures !reply.Ok? ==> error == FailureText(reply, AdminLoginFallback) && unchanged(window)
    {
      match reply {
        case Ok(session) =>
          window.SetItem("admin", session.profile);
          window.SetItem("admin_token", session.accessToken);
          window.Navigate("/admin/dashboard");
        case _ =>
          error := FailureText(reply, AdminLoginFallback);
      }
      loading := false;
    }

    /** The whole of `handleSubmit`: loading is false on every exit. */
    method HandleSubmit(reply: Reply<AuthSession>, window: Window) returns (request: Option<Credentials>)
      modifies this`loading, this`error, window
      ensures !loading
      ensures CredentialsMissing(formData) ==> request == None && error == CredentialsRequiredMessage && unchanged(window)
      ensures !CredentialsMissing(formData) ==> request == Some(CredentialsOf(formData))
      ensures !CredentialsMissing(formData) && reply.Ok? ==>
        && error == ""
        && window.localStorage == old(window.localStorage)["admin" := reply.body.profile]["admin_token" := reply.body.accessToken]
        && window.location == "/admin/dashboard"
      ensures !CredentialsMissing(formData) && !reply.Ok? ==> error == FailureText(reply, AdminLoginFallback) && unchanged(window)
    {
      request := BeginSubmit();
      if request.Some? {
        CompleteSubmit(reply, window);
      }
    }
  }
}
