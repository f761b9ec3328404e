/**
 * The login form: `loginSchema` (the email field, and a password that need
 * only be non-empty) and `onSubmit`, which hands only the email to the
 * verification page through the `tempLoginData` cookie.
 */
module LoginPage {
  import opened Wrappers
  import opened Cookies
  import FormFields
  import OtpVerify

  const MsgPasswordRequired := "Password is required"
  const MsgLoginFailed := "Invalid credentials. Please try again."
  const VerifyRoute := "/login/verify"

  datatype LoginForm = LoginForm(email: string, password: string)

  datatype LoginErrors = LoginErrors(email: Option<string>, password: Option<string>)

  const NoErrors := LoginErrors(None, None)

  /** `loginSchema` applied to a form: no complexity rule for the password. */
  function Validate(f: LoginForm, looksLikeEmail: string -> bool): (e: LoginErrors)
    ensures e.password.None? <==> f.password != ""
    ensures e == NoErrors <==> f.email != "" && looksLikeEmail(f.email) && f.password != ""
  {
    LoginErrors(
      FormFields.EmailFieldError(f.email, looksLikeEmail),
      if f.password == "" then Some(MsgPasswordRequired) else None)
  }

  /** The only payload the login page stores: the email, never the password. */
  function Payload(f: LoginForm): (v: CookieValue)
    ensures v.LoginRecord? && v.email == f.email
  {
    LoginRecord(f.email)
  }

  /** The login page's state; `navigatedTo` is the last route pushed to the router. */
  class LoginFormPage {
    var isSubmitting: bool
    var error: string
    var navigatedTo: Option<string>

    /** Submission runs to completion within one step, so `isSubmitting` is false between steps. */
    ghost predicate Valid()
      reads this
    {
      !isSubmitting
    }

    constructor ()
      ensures Valid() && error == "" && navigatedTo == None
    {
      isSubmitting, error, navigatedTo := false, "", None;
    }

    /**
     * The form submit: the schema first (any field error stops it), then
     * `onSubmit`, which stores `{email}` in `tempLoginData` for one day and
     * goes to the verification page.  `writeFails` is an exception thrown
     * while storing it: nothing is written and the page shows its message.
     */
    method Submit(jar: CookieJar, form: LoginForm, looksLikeEmail: string -> bool,
                  production: bool, writeFails: bool) returns (fieldErrors: LoginErrors)
      requires Valid() && jar.Valid()
      modifies this, jar
      ensures Valid() && jar.Valid()
      ensures fieldErrors == Validate(form, looksLikeEmail)
      ensures fieldErrors != NoErrors ==>
        jar.cookies == old(jar.cookies) && error == old(error) && navigatedTo == old(navigatedTo)
      ensures fieldErrors == NoErrors && writeFails ==>
        jar.cookies == old(jar.cookies) && error == MsgLoginFailed && navigatedTo == old(navigatedTo)
      ensures fieldErrors == NoErrors && !writeFails ==>
        && jar.cookies == old(jar.cookies)[TempLoginData := Cookie(Payload(form), StrictAttrs(1, production, false))]
        && error == "" && navigatedTo == Some(VerifyRoute)
    {
      fieldErrors := Validate(form, looksLikeEmail);
      if fieldErrors != NoErrors {
        return;
      }
      isSubmitting := true;
      error := "";
      if writeFails {
        error := MsgLoginFailed;
      } else {
        jar.Set(TempLoginData, Payload(form), StrictAttrs(1, production, false));
        navigatedTo := Some(VerifyRoute);
      }
      isSubmitting := false;
    }
  }

  /** Two logins that differ only in the password leave the same cookie behind. */
  lemma PasswordNeverStored(email: string, p1: string, p2: string)
    ensures Payload(LoginForm(email, p1)) == Payload(LoginForm(email, p2))
  {
  }

  /** The cookie a successful login writes makes the login verification page send its code to the form's email. */
  lemma HandoffToVerifyPage(cookies: map<string, Cookie>, form: LoginForm, production: bool)
    ensures var c := cookies[TempLoginData := Cookie(Payload(form), StrictAttrs(1, production, false))];
      Truthy(c, OtpVerify.LoginVerify.tempCookie)
      && OtpVerify.PayloadEmail(c[OtpVerify.LoginVerify.tempCookie].value) == form.email
  {
  }
}
