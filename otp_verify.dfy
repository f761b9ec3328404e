/**
 * The OTP verification page.  The signup and the login verification pages
 * hold the same machine; they differ only in the temp cookie they read, the
 * routes they navigate to and the message shown on a wrong code, which
 * `PageConfig` carries.
 *
 * The page generates the code itself, asks the endpoint to email it, counts
 * down the resend delay, and compares the submitted code with the one it
 * generated.  The countdown is never consulted on submit.
 */
module OtpVerify {
  import opened Wrappers
  import opened Text
  import opened Cookies
  import SendOtpRoute
  import AuthClient

  /** `OTP_EXPIRY_TIME`, in seconds. */
  const OtpExpiryTime: nat := 300

  const IssuedAuthToken := "dummy-auth-token"
  const IssuedRefreshToken := "dummy-refresh-token"

  const MsgOtpRequired := "OTP is required"
  const MsgOtpDigits := "OTP must be 6 digits"
  const MsgSendFailed := "Failed to send OTP"

  /** What tells the two pages apart. */
  datatype PageConfig = PageConfig(
    tempCookie: string,
    fallbackRoute: string,
    successRoute: string,
    mismatchMessage: string)

  const SignupVerify := PageConfig(TempUserData, "/signup", "/dashboard", "Failed to verify OTPs. Please try again.")
  const LoginVerify := PageConfig(TempLoginData, "/login", "/", "Failed to verify OTP. Please try again.")

  /**
   * `generateOtp()`: `Math.floor(100000 + Math.random() * 900000).toString()`,
   * with the random part abstracted to an integer draw in [0, 900000).
   */
  function GenerateOtp(draw: nat): (code: string)
    requires draw < 900000
    ensures SendOtpRoute.OtpTest(code) && code[0] != '0'
    ensures DecimalValue(code) == 100000 + draw
  {
    Pow10Six();
    DecimalLength(100000 + draw, 6);
    DecimalRoundTrip(100000 + draw);
    DecimalNoLeadingZero(100000 + draw);
    NatToDecimal(100000 + draw)
  }

  /** Two different draws never give the same code. */
  lemma GenerateOtpInjective(d1: nat, d2: nat)
    requires d1 < 900000 && d2 < 900000
    ensures GenerateOtp(d1) == GenerateOtp(d2) <==> d1 == d2
  {
  }

  /** The seconds field of `formatTime`: two digits, a leading '0' below ten. */
  function TwoDigits(secs: nat): string
    requires secs < 60
  {
    (if secs < 10 then "0" else "") + NatToDecimal(secs)
  }

  /** `formatTime(seconds)`: minutes, ':', seconds padded to two digits. */
  function FormatTime(seconds: nat): string {
    NatToDecimal(seconds / 60) + ":" + TwoDigits(seconds % 60)
  }

  /**
   * Reads an `m:ss` display back: canonical minutes, ':', two digits below 60.
   * The partner of `FormatTime`.
   */
  function ParseTime(t: string): Option<nat> {
    if |t| >= 4 && t[|t| - 3] == ':' then
      var mins := t[..|t| - 3];
      var secs := t[|t| - 2..];
      if AllDigits(mins) && (|mins| == 1 || mins[0] != '0') && AllDigits(secs) && DecimalValue(secs) < 60
      then Some(60 * DecimalValue(mins) + DecimalValue(secs))
      else None
    else None
  }

  lemma {:induction false} TwoDigitsValue(secs: nat)
    requires secs < 60
    ensures |TwoDigits(secs)| == 2 && AllDigits(TwoDigits(secs))
    ensures DecimalValue(TwoDigits(secs)) == secs
  {
    var t := TwoDigits(secs);
    DecimalRoundTrip(secs);
    if secs < 10 {
      DecimalLength(secs, 1);
      assert t[..1] == "0";
      assert DecimalValue(t[..1]) == 0;
    } else {
      DecimalLength(secs, 2);
    }
  }

  /**
   * What `formatTime` shows: the minutes `seconds / 60` in decimal, ':',
   * and the seconds `seconds % 60` as exactly two digits.
   */
  lemma FormatTimeFields(seconds: nat)
    ensures var t := FormatTime(seconds);
      |t| >= 4 && t[|t| - 3] == ':'
      && AllDigits(t[..|t| - 3]) && DecimalValue(t[..|t| - 3]) == seconds / 60
      && AllDigits(t[|t| - 2..]) && DecimalValue(t[|t| - 2..]) == seconds % 60
  {
    var m := NatToDecimal(seconds / 60);
    var ss := TwoDigits(seconds % 60);
    TwoDigitsValue(seconds % 60);
    DecimalRoundTrip(seconds / 60);
    var t := FormatTime(seconds);
    assert t == m + ":" + ss;
    assert t[..|t| - 3] == m;
    assert t[|t| - 2..] == ss;
  }

  /** `ParseTime` undoes `FormatTime`. */
  lemma FormatTimeRoundTrip(seconds: nat)
    ensures ParseTime(FormatTime(seconds)) == Some(seconds)
  {
    FormatTimeFields(seconds);
    var t := FormatTime(seconds);
    assert t[..|t| - 3] == NatToDecimal(seconds / 60);
    DecimalNoLeadingZero(seconds / 60);
  }

  /** Every display `ParseTime` accepts is the one `FormatTime` produces. */
  lemma ParseTimeCanonical(t: string, seconds: nat)
    requires ParseTime(t) == Some(seconds)
    ensures FormatTime(seconds) == t
  {
    var mins := t[..|t| - 3];
    var secs := t[|t| - 2..];
    var m, s := DecimalValue(mins), DecimalValue(secs);
    assert seconds / 60 == m && seconds % 60 == s;
    DecimalCanonical(mins);
    assert secs[..1] == [secs[0]];
    assert DecimalValue(secs[..1]) == DigitValue(secs[0]) by {
      assert secs[..1][..0] == [];
    }
    if s < 10 {
      assert secs[0] == '0';
      assert NatToDecimal(s) == [secs[1]];
      assert TwoDigits(s) == secs;
    } else {
      DecimalCanonical(secs);
    }
    assert t == mins + ":" + secs;
  }

  lemma FormatTimeExamples()
    ensures FormatTime(300) == "5:00"
    ensures FormatTime(65) == "1:05"
    ensures FormatTime(0) == "0:00"
  {
    assert NatToDecimal(5) == "5";
    assert NatToDecimal(0) == "0";
    assert NatToDecimal(1) == "1";
  }

  /** The OTP field of `otpSchema`: required, then /^\d{6}$/; the first failing test's message. */
  function OtpFieldError(input: string): (e: Option<string>)
    ensures e.None? <==> SendOtpRoute.OtpTest(input)
    ensures e.None? ==> input != ""
    ensures input == "" ==> e == Some(MsgOtpRequired)
    ensures input != "" && !SendOtpRoute.OtpTest(input) ==> e == Some(MsgOtpDigits)
  {
    if input == "" then Some(MsgOtpRequired)
    else if !SendOtpRoute.OtpTest(input) then Some(MsgOtpDigits)
    else None
  }

  /** How the page's `fetch('/api/send-otp')` ended. */
  datatype FetchResult =
    | Responded(response: SendOtpRoute.Response)
    | FetchFailed(message: string)

  /** `response.ok`: a status in 200..299. */
  predicate Ok(r: FetchResult) {
    r.Responded? && 200 <= r.response.status <= 299
  }

  /**
   * The message `sendOtp` leaves in `error` when the send did not succeed:
   * the server's `error` field when it is a non-empty string, else the
   * fallback; a rejected `fetch` leaves its own message.
   */
  function SendError(r: FetchResult): (message: string)
    requires !Ok(r)
    ensures r.Responded? && r.response.body.ErrorBody? && r.response.body.error != ""
      ==> message == r.response.body.error
    ensures r.Responded? && !(r.response.body.ErrorBody? && r.response.body.error != "")
      ==> message == MsgSendFailed
    ensures r.FetchFailed? ==> message == r.message
  {
    match r
    case FetchFailed(m) => m
    case Responded(resp) =>
      if resp.body.ErrorBody? && resp.body.error != "" then resp.body.error else MsgSendFailed
  }

  /** The email a temp cookie carries; a plain-text cookie has none. */
  function PayloadEmail(v: CookieValue): string {
    match v
    case SignupRecord(_, email, _) => email
    case LoginRecord(email) => email
    case Text(_) => ""
  }

  /**
   * The page's state.  `sent` lists every `{email, otp}` the page has posted
   * to the endpoint, and `navigatedTo` the last route pushed to the router.
   */
  class VerifyPage {
    const config: PageConfig
    var email: string
    var generatedOtp: string
    var countdown: nat
    var resendDisabled: bool
    var error: string
    var isSendingOtp: bool
    var isSubmitting: bool
    var sent: seq<SendOtpRoute.OtpRequest>
    var navigatedTo: Option<string>

    /**
     * The countdown stays within its range, and resend is disabled exactly
     * while it runs.  `onSubmit` has no `await`, so between two steps
     * `isSubmitting` is always false again.
     */
    ghost predicate Valid()
      reads this
    {
      countdown <= OtpExpiryTime && resendDisabled == (countdown > 0) && !isSubmitting
    }

    /** The first render: countdown 300, resend disabled, no code yet. */
    constructor (config: PageConfig)
      ensures Valid() && this.config == config
      ensures countdown == OtpExpiryTime && resendDisabled
      ensures email == "" && generatedOtp == "" && error == ""
      ensures !isSendingOtp && !isSubmitting && sent == [] && navigatedTo == None
    {
      this.config := config;
      email, generatedOtp, error := "", "", "";
      countdown, resendDisabled := OtpExpiryTime, true;
      isSendingOtp, isSubmitting := false, false;
      sent, navigatedTo := [], None;
    }

    /** The part of `sendOtp` before its `await`: raise the flag, clear the error, post the request. */
    method BeginSend(to: string, code: string)
      modifies this
      ensures isSendingOtp && error == "" && sent == old(sent) + [SendOtpRoute.OtpRequest(to, code)]
      ensures email == old(email) && generatedOtp == old(generatedOtp)
      ensures countdown == old(countdown) && resendDisabled == old(resendDisabled)
      ensures isSubmitting == old(isSubmitting) && navigatedTo == old(navigatedTo)
    {
      isSendingOtp := true;
      error := "";
      sent := sent + [SendOtpRoute.OtpRequest(to, code)];
    }

    /** The mount effect: with the temp cookie, generate, store and send a code; without it, leave. */
    method Mount(jar: CookieJar, draw: nat)
      requires Valid() && draw < 900000
      modifies this
      ensures Valid()
      ensures Truthy(jar.cookies, config.tempCookie) ==>
        && email == PayloadEmail(jar.cookies[config.tempCookie].value)
        && generatedOtp == GenerateOtp(draw)
        && sent == old(sent) + [SendOtpRoute.OtpRequest(email, generatedOtp)]
        && isSendingOtp && error == "" && navigatedTo == old(navigatedTo)
        && countdown == old(countdown)
      ensures !Truthy(jar.cookies, config.tempCookie) ==>
        && navigatedTo == Some(config.fallbackRoute)
        && generatedOtp == old(generatedOtp) && email == old(email) && sent == old(sent)
        && isSendingOtp == old(isSendingOtp) && error == old(error) && countdown == old(countdown)
      ensures isSubmitting == old(isSubmitting)
    {
      if Truthy(jar.cookies, config.tempCookie) {
        email := PayloadEmail(jar.cookies[config.tempCookie].value);
        var otp := GenerateOtp(draw);
        generatedOtp := otp;
        BeginSend(email, otp);
      } else {
        navigatedTo := Some(config.fallbackRoute);
      }
    }

    /**
     * The rest of `sendOtp`, once the fetch has settled: success restarts the
     * countdown with resend disabled; failure only sets `error`.
     */
    method CompleteSend(result: FetchResult)
      requires Valid()
      modifies this
      ensures Valid() && !isSendingOtp
      ensures Ok(result) ==> countdown == OtpExpiryTime && resendDisabled && error == old(error)
      ensures !Ok(result) ==>
        error == SendError(result) && countdown == old(countdown) && resendDisabled == old(resendDisabled)
      ensures email == old(email) && generatedOtp == old(generatedOtp) && sent == old(sent)
      ensures isSubmitting == old(isSubmitting) && navigatedTo == old(navigatedTo)
    {
      if Ok(result) {
        countdown := OtpExpiryTime;
        resendDisabled := true;
      } else {
        error := SendError(result);
      }
      isSendingOtp := false;
    }

    /**
     * One second of the countdown: the pending timer fires and the countdown
     * effect runs again, enabling resend once it reaches 0.  At 0 no timer is
     * pending and nothing happens.
     */
    method Tick()
      requires Valid()
      modifies this
      ensures Valid()
      ensures countdown == if old(countdown) > 0 then old(countdown) - 1 else 0
      ensures resendDisabled == (countdown > 0)
      ensures email == old(email) && generatedOtp == old(generatedOtp) && sent == old(sent)
      ensures error == old(error) && isSendingOtp == old(isSendingOtp)
      ensures isSubmitting == old(isSubmitting) && navigatedTo == old(navigatedTo)
    {
      if countdown > 0 {
        countdown := countdown - 1;
      }
      if countdown == 0 {
        resendDisabled := false;
      }
    }

    /** `handleResendOtp`: without an email nothing happens; otherwise a new code replaces the old one and is sent. */
    method Resend(draw: nat)
      requires Valid() && ResendClickable() && draw < 900000
      modifies this
      ensures Valid()
      ensures email == "" ==>
        generatedOtp == old(generatedOtp) && sent == old(sent) && error == old(error)
        && isSendingOtp == old(isSendingOtp)
      ensures email != "" ==>
        generatedOtp == GenerateOtp(draw) && isSendingOtp && error == ""
        && sent == old(sent) + [SendOtpRoute.OtpRequest(email, generatedOtp)]
      ensures email == old(email) && countdown == old(countdown) && resendDisabled == old(resendDisabled)
      ensures isSubmitting == old(isSubmitting) && navigatedTo == old(navigatedTo)
    {
      if email == "" {
        return;
      }
      var otp := GenerateOtp(draw);
      generatedOtp := otp;
      BeginSend(email, otp);
    }

    /**
     * The form submit: the schema first (a failure is a field error and
     * `onSubmit` does not run), then `onSubmit`, which accepts exactly the
     * generated code, whatever the countdown shows.  On a match the refresh
     * token is written with HttpOnly, which the jar refuses: only the temp
     * cookie and authToken change.
     */
    method Submit(jar: CookieJar, input: string, production: bool) returns (fieldError: Option<string>)
      requires Valid() && jar.Valid()
      modifies this, jar
      ensures Valid() && jar.Valid()
      ensures fieldError == OtpFieldError(input)
      ensures fieldError.Some? ==>
        jar.cookies == old(jar.cookies) && error == old(error) && navigatedTo == old(navigatedTo)
      ensures fieldError.None? && input == generatedOtp ==>
        && jar.cookies == (old(jar.cookies) - {config.tempCookie})
             [AuthToken := Cookie(Text(IssuedAuthToken), StrictAttrs(1, production, false))]
        && navigatedTo == Some(config.successRoute) && error == "" && AuthClient.IsAuthenticated(jar)
      ensures fieldError.None? && input != generatedOtp ==>
        jar.cookies == old(jar.cookies) && error == config.mismatchMessage && navigatedTo == old(navigatedTo)
      ensures email == old(email) && generatedOtp == old(generatedOtp) && sent == old(sent)
      ensures countdown == old(countdown) && resendDisabled == old(resendDisabled)
      ensures isSendingOtp == old(isSendingOtp)
    {
      fieldError := OtpFieldError(input);
      if fieldError.Some? {
        return;
      }
      isSubmitting := true;
      error := "";
      if input != generatedOtp {
        error := config.mismatchMessage;
      } else {
        jar.Remove(config.tempCookie);
        jar.Set(AuthToken, Text(IssuedAuthToken), StrictAttrs(1, production, false));
        jar.Set(RefreshToken, Text(IssuedRefreshToken), StrictAttrs(7, production, true));
        navigatedTo := Some(config.successRoute);
      }
      isSubmitting := false;
    }

    /** The resend button is clickable only when resend is enabled and no send is in flight. */
    predicate ResendClickable()
      reads this
    {
      !resendDisabled && !isSendingOtp
    }
  }

  /**
   * No submission can match the empty code a page holds before its first code
   * is generated: submitting anything on a fresh page leaves it where it is
   * and the cookies as they were.
   */
  method EmptyCodeNeverVerifies(config: PageConfig, jar: CookieJar, input: string, production: bool)
    returns (navigated: Option<string>)
    requires jar.Valid()
    modifies jar
    ensures navigated == None && jar.cookies == old(jar.cookies)
  {
    var page := new VerifyPage(config);
    var _ := page.Submit(jar, input, production);
    navigated := page.navigatedTo;
  }

  /**
   * After a resend with a different draw, submitting the previous code is a
   * mismatch, whatever the send's outcome: the page shows its mismatch
   * message and the cookies stay as they were.
   */
  method ResendInvalidatesPreviousCode(page: VerifyPage, jar: CookieJar, previousDraw: nat, draw: nat,
                                       result: FetchResult, production: bool)
    requires page.Valid() && page.ResendClickable() && page.email != "" && jar.Valid()
    requires previousDraw < 900000 && draw < 900000 && previousDraw != draw
    requires page.generatedOtp == GenerateOtp(previousDraw)
    modifies page, jar
    ensures page.error == page.config.mismatchMessage && jar.cookies == old(jar.cookies)
    ensures page.navigatedTo == old(page.navigatedTo)
  {
    var previous := page.generatedOtp;
    page.Resend(draw);
    page.CompleteSend(result);
    GenerateOtpInjective(previousDraw, draw);
    var _ := page.Submit(jar, previous, production);
  }

  /** A generated code always passes the endpoint's OTP check, so only the email can be refused. */
  lemma EndpointAcceptsGeneratedCode(email: string, draw: nat,
                                     notify: (string, string) -> SendOtpRoute.Delivery, nodeEnv: string)
    requires draw < 900000 && SendOtpRoute.EmailTest(email)
    ensures SendOtpRoute.Post(SendOtpRoute.Fields(Some(email), Some(GenerateOtp(draw))), notify, nodeEnv).notified
      == Some(SendOtpRoute.OtpRequest(email, GenerateOtp(draw)))
  {
    assert email != "";
  }

  /** Every error the endpoint returns reaches the page's `error` as the endpoint worded it. */
  lemma EndpointErrorShownVerbatim(body: SendOtpRoute.RequestBody,
                                   notify: (string, string) -> SendOtpRoute.Delivery, nodeEnv: string)
    requires SendOtpRoute.Post(body, notify, nodeEnv).response.status != 200
    ensures var r := Responded(SendOtpRoute.Post(body, notify, nodeEnv).response);
      !Ok(r) && r.response.body.ErrorBody? && SendError(r) == r.response.body.error
  {
  }

  /** The pair a page stores on a match is the pair `verifyOtp` would have returned. */
  lemma PageStoresVerifyOtpPair(code: string)
    ensures AuthClient.VerifyOtp(code) == AuthClient.TokenPair(IssuedAuthToken, IssuedRefreshToken)
  {
  }
}
