/**
 * The signup form: `signupSchema` (name required, the email field, a password
 * policy given by one regular expression) and `onSubmit`, which hands the
 * whole form to the verification page through the `tempUserData` cookie.
 */
module SignupPage {
  import opened Wrappers
  import opened Text
  import opened Cookies
  import FormFields
  import OtpVerify

  const MsgNameRequired := "Name is required"
  const MsgPasswordRequired := "Password is required"
  const MsgPasswordShort := "Password must be at least 8 characters"
  const MsgPasswordWeak := "Password must contain at least one uppercase letter, one lowercase letter, one number, and one special character"
  const MsgSignupFailed := "An error occurred during signup. Please try again."
  const VerifyRoute := "/signup/verify"

  /** `[@$!%*?&]`. */
  predicate IsSpecial(c: char) {
    c == '@' || c == '$' || c == '!' || c == '%' || c == '*' || c == '?' || c == '&'
  }

  /** `[A-Za-z\d@$!%*?&]`: the only characters a password may contain. */
  predicate IsPasswordChar(c: char) {
    IsLower(c) || IsUpper(c) || IsDigit(c) || IsSpecial(c)
  }

  /** The four classes each lookahead of the password pattern asks for. */
  datatype CharClass = Lower | Upper | Digit | Special

  predicate InClass(c: char, cls: CharClass) {
    match cls
    case Lower => IsLower(c)
    case Upper => IsUpper(c)
    case Digit => IsDigit(c)
    case Special => IsSpecial(c)
  }

  /** `(?=.*X)` at the start: a character of class X with no line terminator before it (`.` skips none). */
  ghost predicate LookaheadFinds(s: string, cls: CharClass) {
    exists k :: 0 <= k < |s| && InClass(s[k], cls) && forall m :: 0 <= m < k ==> !IsLineTerminator(s[m])
  }

  /**
   * /^(?=.*[a-z])(?=.*[A-Z])(?=.*\d)(?=.*[@$!%*?&])[A-Za-z\d@$!%*?&]{8,}$/
   * read as a regular expression.
   */
  ghost predicate PasswordRegexMatches(s: string) {
    LookaheadFinds(s, Lower) && LookaheadFinds(s, Upper) && LookaheadFinds(s, Digit) && LookaheadFinds(s, Special)
    && |s| >= 8 && forall k :: 0 <= k < |s| ==> IsPasswordChar(s[k])
  }

  /** What one pass over a password has seen. */
  datatype Seen = Seen(lower: bool, upper: bool, digit: bool, special: bool, onlyAllowed: bool)

  predicate Contains(s: string, cls: CharClass) {
    exists k :: 0 <= k < |s| && InClass(s[k], cls)
  }

  /** One left-to-right pass collecting which classes occur and whether every character is allowed. */
  function Scan(s: string): (r: Seen)
    ensures r.lower <==> Contains(s, Lower)
    ensures r.upper <==> Contains(s, Upper)
    ensures r.digit <==> Contains(s, Digit)
    ensures r.special <==> Contains(s, Special)
    ensures r.onlyAllowed <==> forall k :: 0 <= k < |s| ==> IsPasswordChar(s[k])
    decreases |s|
  {
    if s == [] then Seen(false, false, false, false, true)
    else
      var rest := Scan(s[1..]);
      var c := s[0];
      assert forall k :: 1 <= k < |s| ==> s[k] == s[1..][k - 1];
      assert forall k :: 0 <= k < |s| - 1 ==> s[1..][k] == s[k + 1];
      Seen(rest.lower || IsLower(c), rest.upper || IsUpper(c), rest.digit || IsDigit(c),
           rest.special || IsSpecial(c), rest.onlyAllowed && IsPasswordChar(c))
  }

  /** The password policy as the page tests it: the scan's verdict. */
  predicate StrongPassword(s: string) {
    var r := Scan(s);
    |s| >= 8 && r.onlyAllowed && r.lower && r.upper && r.digit && r.special
  }

  /**
   * The scan accepts exactly the pattern's language: once every character is
   * allowed, none is a line terminator, so each lookahead only asks that its
   * class occur somewhere.
   */
  lemma StrongPasswordMatchesRegex(s: string)
    ensures StrongPassword(s) <==> PasswordRegexMatches(s)
  {
    if StrongPassword(s) {
      forall cls: CharClass ensures LookaheadFinds(s, cls) {
        var k :| 0 <= k < |s| && InClass(s[k], cls);
        assert forall m :: 0 <= m < k ==> IsPasswordChar(s[m]);
      }
    }
    if PasswordRegexMatches(s) {
      forall cls: CharClass ensures Contains(s, cls) {
        var k :| 0 <= k < |s| && InClass(s[k], cls) && forall m :: 0 <= m < k ==> !IsLineTerminator(s[m]);
      }
    }
  }

  datatype SignupForm = SignupForm(name: string, email: string, password: string)

  /** The first error of each field, `None` where the field passes. */
  datatype SignupErrors = SignupErrors(name: Option<string>, email: Option<string>, password: Option<string>)

  const NoErrors := SignupErrors(None, None, None)

  /** The password field: `required`, then `min(8)`, then the pattern; the first failing test's message. */
  function PasswordFieldError(password: string): (e: Option<string>)
    ensures e.None? <==> StrongPassword(password)
    ensures e == Some(MsgPasswordRequired) <==> password == ""
    ensures e == Some(MsgPasswordShort) <==> 0 < |password| < 8
    ensures |password| >= 8 && !StrongPassword(password) ==> e == Some(MsgPasswordWeak)
  {
    if password == "" then Some(MsgPasswordRequired)
    else if |password| < 8 then Some(MsgPasswordShort)
    else if !StrongPassword(password) then Some(MsgPasswordWeak)
    else None
  }

  /** `signupSchema` applied to a form. */
  function Validate(f: SignupForm, looksLikeEmail: string -> bool): (e: SignupErrors)
    ensures e == NoErrors <==>
      f.name != "" && f.email != "" && looksLikeEmail(f.email) && StrongPassword(f.password)
    ensures e.name.None? <==> f.name != ""
  {
    SignupErrors(
      if f.name == "" then Some(MsgNameRequired) else None,
      FormFields.EmailFieldError(f.email, looksLikeEmail),
      PasswordFieldError(f.password))
  }

  /** The signup page's state; `navigatedTo` is the last route pushed to the router. */
  class SignupFormPage {
    var isSubmitting: bool
    var error: string
    var navigatedTo: Option<string>

    /** Submission runs to completion within one step, so `isSubmitting` is false between steps. */
    ghost predicate Valid()
      reads this
    {
      !isSubmitting
    }

    constructor ()
      ensures Valid() && error == "" && navigatedTo == None
    {
      isSubmitting, error, navigatedTo := false, "", None;
    }

    /**
     * The form submit: the schema first (any field error stops it), then
     * `onSubmit`, which stores the whole form in `tempUserData` for one day
     * and goes to the verification page.  `writeFails` is an exception thrown
     * while storing it: nothing is written and the page shows its message.
     */
    method Submit(jar: CookieJar, form: SignupForm, looksLikeEmail: string -> bool,
                  production: bool, writeFails: bool) returns (fieldErrors: SignupErrors)
      requires Valid() && jar.Valid()
      modifies this, jar
      ensures Valid() && jar.Valid()
      ensures fieldErrors == Validate(form, looksLikeEmail)
      ensures fieldErrors != NoErrors ==>
        jar.cookies == old(jar.cookies) && error == old(error) && navigatedTo == old(navigatedTo)
      ensures fieldErrors == NoErrors && writeFails ==>
        jar.cookies == old(jar.cookies) && error == MsgSignupFailed && navigatedTo == old(navigatedTo)
      ensures fieldErrors == NoErrors && !writeFails ==>
        && jar.cookies == old(jar.cookies)[TempUserData :=
             Cookie(SignupRecord(form.name, form.email, form.password), StrictAttrs(1, production, false))]
        && error == "" && navigatedTo == Some(VerifyRoute)
    {
      fieldErrors := Validate(form, looksLikeEmail);
      if fieldErrors != NoErrors {
        return;
      }
      isSubmitting := true;
      error := "";
      if writeFails {
        error := MsgSignupFailed;
      } else {
        jar.Set(TempUserData, SignupRecord(form.name, form.email, form.password), StrictAttrs(1, production, false));
        navigatedTo := Some(VerifyRoute);
      }
      isSubmitting := false;
    }
  }

  /** The cookie a successful signup writes makes the signup verification page send its code to the form's email. */
  lemma HandoffToVerifyPage(cookies: map<string, Cookie>, form: SignupForm, production: bool)
    ensures var c := cookies[TempUserData := Cookie(SignupRecord(form.name, form.email, form.password),
                                                    StrictAttrs(1, production, false))];
      Truthy(c, OtpVerify.SignupVerify.tempCookie)
      && OtpVerify.PayloadEmail(c[OtpVerify.SignupVerify.tempCookie].value) == form.email
  {
  }
}
