/** The beta sign-up form (`src/app/signup/page.tsx`): field updates, the
    ordered required-field and password-length checks, the request body,
    and the outcome of the sign-up call. */
module Signup {
  import opened Common
  import opened Browser
  import opened AuthForms

  /** The sign-up record as first rendered: every input empty. */
  const EmptySignupForm: map<string, string> :=
    map["email" := "", "password" := "", "name" := "", "betaCode" := "", "company" := ""]

  const MinPasswordLength: nat := 6

  datatype SignupError = MissingField | ShortPassword

  function SignupMessage(e: SignupError): string
  {
    match e
    case MissingField => "All fields are required"
    case ShortPassword => "Password must be at least 6 characters"
  }

  /** Email, password, name and beta code are required; company is not. */
  predicate RequiredFieldMissing(form: map<string, string>)
  {
    || FieldValue(form, "email") == ""
    || FieldValue(form, "password") == ""
    || FieldValue(form, "name") == ""
    || FieldValue(form, "betaCode") == ""
  }

  /** The checks of `handleSubmit`, in order: a missing required field is
      reported before a short password. */
  function SignupValidationError(form: map<string, string>): (r: Option<SignupError>)
    ensures r == Some(MissingField) <==> RequiredFieldMissing(form)
    ensures r == Some(ShortPassword) <==> !RequiredFieldMissing(form) && |FieldValue(form, "password")| < MinPasswordLength
    ensures r == None ==> && FieldValue(form, "email") != "" && FieldValue(form, "name") != ""
                          && FieldValue(form, "betaCode") != ""
                          && |FieldValue(form, "password")| >= MinPasswordLength
  {
    if RequiredFieldMissing(form) then Some(MissingField)
    else if |FieldValue(form, "password")| < MinPasswordLength then Some(ShortPassword)
    else None
  }

  /** The company field never decides the outcome of validation. */
  lemma CompanyIsOptional(form: map<string, string>, company: string)
    ensures SignupValidationError(WithField(form, "company", company)) == SignupValidationError(form)
  {
    ReadAfterUpdate(form, "company", company, "email");
    ReadAfterUpdate(form, "company", company, "password");
    ReadAfterUpdate(form, "company", company, "name");
    ReadAfterUpdate(form, "company", company, "betaCode");
  }

  /** The JSON body posted by the form; `company` None is `null`. */
  datatype SignupRequest = SignupRequest(betaCode: string, name: string, email: string, password: string, company: Option<string>)

  /** `betaCode` is sent as `beta_code`, the other fields as they are, and an
      empty company as null. */
  function SignupBody(form: map<string, string>): (r: SignupRequest)
    ensures r.betaCode == FieldValue(form, "betaCode") && r.name == FieldValue(form, "name")
    ensures r.email == FieldValue(form, "email") && r.password == FieldValue(form, "password")
    ensures r.company.None? <==> FieldValue(form, "company") == ""
    ensures r.company.Some? ==> r.company.value == FieldValue(form, "company")
  {
    var company := FieldValue(form, "company");
    SignupRequest(FieldValue(form, "betaCode"), FieldValue(form, "name"), FieldValue(form, "email"),
                  FieldValue(form, "password"), if company == "" then None else Some(company))
  }

  /** The text a refused sign-up shows when the backend gives no `detail`. */
  const SignupFallback: string := "Failed to create account"

  class SignupForm {
    var formData: map<string, string>
    var loading: bool
    var error: string

    constructor ()
      ensures formData == EmptySignupForm && !loading && error == ""
    {
      formData := EmptySignupForm;
      loading := false;
      error := "";
    }

    /** `handleChange`: only the input that fired the event changes. */
    method HandleChange(name: string, value: string)
      modifies this`formData
      ensures formData == WithField(old(formData), name, value)
    {
      formData := WithField(formData, name, value);
    }

    /** `handleSubmit` up to the request: loading starts and the error is
        cleared; a failed check then sets its message and ends loading with
        no request, otherwise the body is built and loading goes on. */
    method BeginSubmit() returns (request: Option<SignupRequest>)
      modifies this`loading, this`error
      ensures var verdict := SignupValidationError(formData);
        && (verdict.Some? ==> request == None && !loading && error == SignupMessage(verdict.value))
        && (verdict.None? ==> request == Some(SignupBody(formData)) && loading && error == "")
    {
      loading := true;
      error := "";
      if RequiredFieldMissing(formData) {
        error := SignupMessage(MissingField);
        loading := false;
        return None;
      }
      if |FieldValue(formData, "password")| < MinPasswordLength {
        error := SignupMessage(ShortPassword);
        loading := false;
        return None;
      }
      request := Some(SignupBody(formData));
    }

    /** `handleSubmit` after the request: an ok reply stores the user and
        token and sends the browser to the dashboard; any other reply sets
        the error and leaves the browser alone; loading ends either way. */
    method CompleteSubmit(reply: Reply<AuthSession>, window: Window)
      modifies this`loading, this`error, window
      ensures !loading
      ensures reply.Ok? ==>
        && error == old(error)
        && window.localStorage == old(window.localStorage)["user" := reply.body.profile]["token" := reply.body.accessToken]
        && window.location == "/dashboard"
      ensures !reply.Ok? ==> error == FailureText(reply, SignupFallback) && unchanged(window)
    {
      match reply {
        case Ok(session) =>
          window.SetItem("user", session.profile);
          window.SetItem("token", session.accessToken);
          window.Navigate("/dashboard");
        case _ =>
          error := FailureText(reply, SignupFallback);
      }
      loading := false;
    }

    /** The whole of `handleSubmit`, the backend's reply given as `reply`:
        loading is false on every exit. */
    method HandleSubmit(reply: Reply<AuthSession>, window: Window) returns (request: Option<SignupRequest>)
      modifies this`loading, this`error, window
      ensures !loading
      ensures var verdict := SignupValidationError(formData);
        && (verdict.Some? ==> request == None && error == SignupMessage(verdict.value) && unchanged(window))
        && (verdict.None? ==> request == Some(SignupBody(formData)))
        && (verdict.None? && reply.Ok? ==>
              && error == ""
              && window.localStorage == old(window.localStorage)["user" := reply.body.profile]["token" := reply.body.accessToken]
              && window.location == "/dashboard")
        && (verdict.None? && !reply.Ok? ==> error == FailureText(reply, SignupFallback) && unchanged(window))
    {
      request := BeginSubmit();
      if request.Some? {
        CompleteSubmit(reply, window);
      }
    }
  }
}
