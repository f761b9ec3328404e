/**
 * The OTP delivery endpoint (`POST /api/send-otp` and its CORS preflight).
 * `POST` is a chain of guards over the JSON body `{email, otp}` that ends in
 * one call of the email notifier; the notifier is a parameter.
 */
module SendOtpRoute {
  import opened Wrappers
  import opened Text

  const MsgRequired := "Email and OTP are required"
  const MsgBadEmail := "Invalid email format"
  const MsgBadOtp := "Invalid OTP format. Must be 6 digits."
  const MsgNotSent := "Failed to send OTP. Please try again."
  const MsgFailed := "Failed to send OTP"
  const MsgUnknown := "Unknown error"

  /** A thrown JavaScript value: an `Error` carries a message, anything else does not. */
  datatype Thrown = ErrorObject(message: string) | NonErrorValue

  /** The body after `request.json()`: the parse threw, or the `email` and `otp` fields (absent or text). */
  datatype RequestBody =
    | Unparsable(cause: Thrown)
    | Fields(email: Option<string>, otp: Option<string>)

  /** What the notifier `sendOtpEmail` did: resolved to a boolean, or threw. */
  datatype Delivery = Delivered(sent: bool) | Threw(cause: Thrown)

  datatype ResponseBody =
    | ErrorBody(error: string, details: Option<string>)
    | SuccessBody
    | NoBody

  /** An HTTP response; `headers` lists only the headers the handler sets itself. */
  datatype Response = Response(status: int, body: ResponseBody, headers: map<string, string>)

  /** The arguments of one call of the notifier. */
  datatype OtpRequest = OtpRequest(email: string, otp: string)

  /** The response `POST` returns together with the notifier call it made, if any. */
  datatype Handled = Handled(response: Response, notified: Option<OtpRequest>)

  /** JavaScript truthiness of a body field: present and not the empty string. */
  predicate Present(field: Option<string>) {
    field.Some? && field.value != ""
  }

  /** `[^\s@]`: any character but whitespace and '@'. */
  predicate IsEmailAtom(c: char) {
    !IsJsSpace(c) && c != '@'
  }

  predicate AllAtoms(s: string) {
    forall k :: 0 <= k < |s| ==> IsEmailAtom(s[k])
  }

  /**
   * `EMAIL_REGEX` read as a regular expression: a non-empty run of atoms,
   * '@', a non-empty run, a literal '.', a non-empty run, and nothing else.
   */
  ghost predicate EmailRegexMatches(s: string) {
    exists i, j :: 0 < i && i + 1 < j && j + 1 < |s| && s[i] == '@' && s[j] == '.'
      && AllAtoms(s[..i]) && AllAtoms(s[i + 1..j]) && AllAtoms(s[j + 1..])
  }

  /** The index of the first occurrence of `c`, if any. */
  function FirstIndex(s: string, c: char): (r: Option<nat>)
    ensures r.Some? ==> r.value < |s| && s[r.value] == c && c !in s[..r.value]
    ensures r.None? ==> c !in s
  {
    if s == [] then None
    else if s[0] == c then Some(0)
    else match FirstIndex(s[1..], c)
      case None => None
      case Some(k) =>
        assert s[1..][..k] == s[1..k + 1];
        Some(k + 1)
  }

  /** The part after the '@': atoms only, with a '.' that has an atom on each side. */
  predicate DomainTest(d: string) {
    |d| >= 3 && AllAtoms(d) && '.' in d[1..|d| - 1]
  }

  /** `EMAIL_REGEX.test(email)`, decided by one scan for the '@'. */
  predicate EmailTest(s: string) {
    match FirstIndex(s, '@')
    case None => false
    case Some(i) => 0 < i && AllAtoms(s[..i]) && DomainTest(s[i + 1..])
  }

  /** `OTP_REGEX.test(otp)` for /^\d{6}$/: exactly six ASCII digits. */
  predicate OtpTest(s: string) {
    |s| == 6 && AllDigits(s)
  }

  /** The body passes all three guards, so the handler goes on to the notifier. */
  predicate Accepted(body: RequestBody) {
    body.Fields? && Present(body.email) && Present(body.otp)
    && EmailTest(body.email.value) && OtpTest(body.otp.value)
  }

  function BadRequest(message: string): Response {
    Response(400, ErrorBody(message, None), map[])
  }

  /** The `catch` branch: 500 with `details` (the error's message) only when NODE_ENV is 'development'. */
  function ExceptionResponse(cause: Thrown, nodeEnv: string): Response {
    var details := if cause.ErrorObject? then cause.message else MsgUnknown;
    Response(500, ErrorBody(MsgFailed, if nodeEnv == "development" then Some(details) else None), map[])
  }

  /** `POST(request)`. */
  function Post(body: RequestBody, notify: (string, string) -> Delivery, nodeEnv: string): (h: Handled)
    ensures h.response.status in {200, 400, 500}
    ensures h.response.status == 400 <==> body.Fields? && !Accepted(body)
    ensures h.notified.Some? <==> Accepted(body)
    ensures h.notified.Some? ==> h.notified.value == OtpRequest(body.email.value, body.otp.value)
    ensures h.response.status == 200 <==>
      Accepted(body) && notify(body.email.value, body.otp.value) == Delivered(true)
    ensures h.response.status == 200 ==> h.response.body == SuccessBody
  {
    match body
    case Unparsable(cause) => Handled(ExceptionResponse(cause, nodeEnv), None)
    case Fields(email, otp) =>
      if !Present(email) || !Present(otp) then Handled(BadRequest(MsgRequired), None)
      else if !EmailTest(email.value) then Handled(BadRequest(MsgBadEmail), None)
      else if !OtpTest(otp.value) then Handled(BadRequest(MsgBadOtp), None)
      else
        var call := OtpRequest(email.value, otp.value);
        match notify(email.value, otp.value)
        case Delivered(sent) =>
          if sent then Handled(Response(200, SuccessBody, map[]), Some(call))
          else Handled(Response(500, ErrorBody(MsgNotSent, None), map[]), Some(call))
        case Threw(cause) => Handled(ExceptionResponse(cause, nodeEnv), Some(call))
  }

  /** `OPTIONS()`: the CORS preflight answer, the same for every request. */
  function Options(): (r: Response)
    ensures r.status == 204 && r.body == NoBody
    ensures r.headers == map[
      "Access-Control-Allow-Origin" := "*",
      "Access-Control-Allow-Methods" := "POST, OPTIONS",
      "Access-Control-Allow-Headers" := "Content-Type"]
  {
    Response(204, NoBody, map[
      "Access-Control-Allow-Origin" := "*",
      "Access-Control-Allow-Methods" := "POST, OPTIONS",
      "Access-Control-Allow-Headers" := "Content-Type"])
  }

  /** The scan decides exactly the language of `EMAIL_REGEX`. */
  lemma EmailTestMatchesRegex(s: string)
    ensures EmailTest(s) <==> EmailRegexMatches(s)
  {
    if EmailTest(s) {
      EmailTestSound(s);
    }
    if EmailRegexMatches(s) {
      var i, j :| 0 < i && i + 1 < j && j + 1 < |s| && s[i] == '@' && s[j] == '.'
        && AllAtoms(s[..i]) && AllAtoms(s[i + 1..j]) && AllAtoms(s[j + 1..]);
      EmailTestComplete(s, i, j);
    }
  }

  lemma EmailTestSound(s: string)
    requires EmailTest(s)
    ensures EmailRegexMatches(s)
  {
    var i := FirstIndex(s, '@').value;
    var d := s[i + 1..];
    var p :| 1 <= p < |d| - 1 && d[1..|d| - 1][p - 1] == '.';
    var j := i + 1 + p;
    assert s[j] == '.';
    assert s[i + 1..j] == d[..p];
    assert s[j + 1..] == d[p + 1..];
    AtomsSlice(d, 0, p);
    AtomsSlice(d, p + 1, |d|);
    assert AllAtoms(s[i + 1..j]);
    assert AllAtoms(s[j + 1..]);
  }

  lemma AtomsSlice(d: string, lo: nat, hi: nat)
    requires lo <= hi <= |d| && AllAtoms(d)
    ensures AllAtoms(d[lo..hi])
  {
  }

  lemma EmailTestComplete(s: string, i: nat, j: nat)
    requires 0 < i && i + 1 < j && j + 1 < |s| && s[i] == '@' && s[j] == '.'
    requires AllAtoms(s[..i]) && AllAtoms(s[i + 1..j]) && AllAtoms(s[j + 1..])
    ensures EmailTest(s)
  {
    assert '@' !in s[..i] by {
      forall k | 0 <= k < i ensures s[..i][k] != '@' {
        assert IsEmailAtom(s[..i][k]);
      }
    }
    FirstIndexAt(s, '@', i);
    var d := s[i + 1..];
    forall k | 0 <= k < |d| ensures IsEmailAtom(d[k]) {
      if k < j - i - 1 {
        assert d[k] == s[i + 1..j][k];
      } else if k > j - i - 1 {
        assert d[k] == s[j + 1..][k - (j - i)];
      }
    }
    assert d[1..|d| - 1][j - i - 2] == '.';
  }

  /** An '@' with no '@' before it is the one `FirstIndex` finds. */
  lemma FirstIndexAt(s: string, c: char, i: nat)
    requires i < |s| && s[i] == c && c !in s[..i]
    ensures FirstIndex(s, c) == Some(i)
  {
    assert s[i] in s;
  }

  /**
   * What an accepted email looks like: no whitespace, exactly one '@' with a
   * non-empty part before it, and a '.' after the '@' that has at least one
   * character on each side.
   */
  lemma AcceptedEmailShape(s: string)
    requires EmailTest(s)
    ensures forall k :: 0 <= k < |s| ==> !IsJsSpace(s[k])
    ensures exists i :: (0 < i < |s| && s[i] == '@'
      && (forall k :: 0 <= k < |s| && s[k] == '@' ==> k == i)
      && (exists j :: i + 1 < j < |s| - 1 && s[j] == '.'))
  {
    var i := FirstIndex(s, '@').value;
    var d := s[i + 1..];
    forall k | 0 <= k < |s| ensures !IsJsSpace(s[k]) && (s[k] == '@' ==> k == i) {
      if k < i {
        assert s[..i][k] == s[k];
      } else if k > i {
        assert d[k - i - 1] == s[k];
      }
    }
    var p :| 1 <= p < |d| - 1 && d[p] == '.';
    assert s[i + 1 + p] == '.';
  }

  /** A missing or empty field is reported before either format is looked at. */
  lemma RequiredCheckedFirst(email: Option<string>, otp: Option<string>,
                             notify: (string, string) -> Delivery, nodeEnv: string)
    requires !Present(email) || !Present(otp)
    ensures Post(Fields(email, otp), notify, nodeEnv) == Handled(BadRequest(MsgRequired), None)
  {
  }

  /** A bad email is reported whatever the OTP looks like. */
  lemma EmailErrorTakesPriority(email: string, otp: string,
                                notify: (string, string) -> Delivery, nodeEnv: string)
    requires email != "" && otp != "" && !EmailTest(email)
    ensures Post(Fields(Some(email), Some(otp)), notify, nodeEnv) == Handled(BadRequest(MsgBadEmail), None)
  {
  }

  /** With a good email, anything but six ASCII digits is rejected as a bad OTP. */
  lemma OtpFormatRejected(email: string, otp: string,
                          notify: (string, string) -> Delivery, nodeEnv: string)
    requires email != "" && otp != "" && EmailTest(email) && !OtpTest(otp)
    ensures Post(Fields(Some(email), Some(otp)), notify, nodeEnv) == Handled(BadRequest(MsgBadOtp), None)
  {
  }

  /** The notifier's `false` becomes a 500 with the retry message. */
  lemma NotSentIsServerError(email: string, otp: string,
                             notify: (string, string) -> Delivery, nodeEnv: string)
    requires Accepted(Fields(Some(email), Some(otp))) && notify(email, otp) == Delivered(false)
    ensures Post(Fields(Some(email), Some(otp)), notify, nodeEnv).response
      == Response(500, ErrorBody(MsgNotSent, None), map[])
  {
  }

  /** A thrown exception gives a 500 whose `details` appear only in development. */
  lemma ExceptionDetailsOnlyInDevelopment(body: RequestBody,
                                          notify: (string, string) -> Delivery, nodeEnv: string)
    requires body.Unparsable? || (Accepted(body) && notify(body.email.value, body.otp.value).Threw?)
    ensures var r := Post(body, notify, nodeEnv).response;
      r.status == 500 && r.body.ErrorBody? && r.body.error == MsgFailed
      && (r.body.details.Some? <==> nodeEnv == "development")
  {
  }
}
