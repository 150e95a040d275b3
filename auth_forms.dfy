/** What the three authentication forms (sign-up, sign-in, admin sign-in)
    have in common: the session a successful call returns, the error text a
    failed call leaves, and the email/password required-field check of the
    two sign-in forms. */
module AuthForms {
  import opened Common
  import opened Browser

  /** A successful authentication reply: the profile object (kept as the
      JSON text the page stores) and the bearer token. */
  datatype AuthSession = AuthSession(profile: string, accessToken: string)

  /** The error text a failed authentication call leaves on its form: the
      backend's non-empty `detail`, else the form's own fallback text; a
      thrown exception shows its own message. */
  function FailureText(reply: Reply<AuthSession>, fallback: string): (r: string)
    requires !reply.Ok?
    ensures reply.NotOk? && reply.detail.Some? && reply.detail.value != "" ==> r == reply.detail.value
    ensures reply.NotOk? && (reply.detail.None? || reply.detail.value == "") ==> r == fallback
    ensures reply.NotOk? && fallback != "" ==> r != ""
    ensures reply.Threw? ==> r == reply.message
  {
    match reply
    case NotOk(_, detail) => StringOr(detail, fallback)
    case Threw(message) => message
  }

  /** The email/password record of both sign-in forms, as first rendered. */
  const EmptyCredentials: map<string, string> := map["email" := "", "password" := ""]

  const CredentialsRequiredMessage: string := "Email and password are required"

  /** The sign-in forms stop when either the email or the password is empty. */
  predicate CredentialsMissing(form: map<string, string>)
  {
    FieldValue(form, "email") == "" || FieldValue(form, "password") == ""
  }

  /** The body both sign-in forms post. */
  datatype Credentials = Credentials(email: string, password: string)

  function CredentialsOf(form: map<string, string>): (c: Credentials)
    ensures c.email == FieldValue(form, "email") && c.password == FieldValue(form, "password")
    ensures !CredentialsMissing(form) ==> c.email != "" && c.password != ""
  {
    Credentials(FieldValue(form, "email"), FieldValue(form, "password"))
  }

  /** Typing in an input other than email or password never changes whether
      the credentials are missing; typing a non-empty value into one of them
      leaves only the other to decide. */
  lemma CredentialsMissingAfterChange(form: map<string, string>, name: string, value: string)
    ensures name != "email" && name != "password" ==>
              CredentialsMissing(WithField(form, name, value)) == CredentialsMissing(form)
    ensures name == "email" && value != "" ==>
              CredentialsMissing(WithField(form, name, value)) == (FieldValue(form, "password") == "")
    ensures name == "password" && value != "" ==>
              CredentialsMissing(WithField(form, name, value)) == (FieldValue(form, "email") == "")
  {
    ReadAfterUpdate(form, name, value, "email");
    ReadAfterUpdate(form, name, value, "password");
  }
}
