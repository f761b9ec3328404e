/**
 * The client's token handling: the axios request interceptor that attaches
 * the access token, the response interceptor that refreshes it once on a 401,
 * and the cookie helpers `login`, `verifyOtp`, `logout`, `isAuthenticated`.
 *
 * The transport is a parameter: `server(k)` is the reply to the k-th
 * transmission of a request.  The simulated refresh either completes or
 * throws, as `refreshFails` says.
 */
module AuthClient {
  import opened Wrappers
  import opened Cookies

  const Authorization := "Authorization"
  const DummyAuthToken := "dummy-auth-token"
  const DummyRefreshToken := "dummy-refresh-token"
  const RefreshedAuthToken := "new-dummy-auth-token"
  const LoginRoute := "/login"

  datatype TokenPair = TokenPair(authToken: string, refreshToken: string)

  function Bearer(token: string): string {
    "Bearer " + token
  }

  /**
   * An axios request config; `retry` is `_retry`.  Each call through the
   * client works on its own merged copy, which both interceptors change in
   * place.
   */
  class RequestConfig {
    var headers: map<string, string>
    var retry: bool

    constructor (headers: map<string, string>, retry: bool)
      ensures this.headers == headers && this.retry == retry
    {
      this.headers := headers;
      this.retry := retry;
    }
  }

  /** `isAuthenticated()`: an authToken cookie is present and non-empty. */
  predicate IsAuthenticated(jar: CookieJar): (b: bool)
    reads jar
    ensures jar.Valid() ==> (b <==> AuthToken in jar.cookies && jar.cookies[AuthToken].value.text != "")
  {
    Truthy(jar.cookies, AuthToken)
  }

  /** The header the request interceptor leaves on a config that had `headers`. */
  function WithToken(cookies: map<string, Cookie>, headers: map<string, string>): (h: map<string, string>)
    requires TokensAreText(cookies)
    ensures Truthy(cookies, AuthToken) ==> h == headers[Authorization := Bearer(cookies[AuthToken].value.text)]
    ensures !Truthy(cookies, AuthToken) ==> h == headers
  {
    if Truthy(cookies, AuthToken) then headers[Authorization := Bearer(cookies[AuthToken].value.text)] else headers
  }

  /** The request interceptor: attach `Bearer <token>` when there is a token, else leave the config alone. */
  method AttachToken(jar: CookieJar, config: RequestConfig)
    requires jar.Valid()
    modifies config
    ensures config.headers == WithToken(jar.cookies, old(config.headers))
    ensures config.retry == old(config.retry)
  {
    if Truthy(jar.cookies, AuthToken) {
      config.headers := config.headers[Authorization := Bearer(jar.cookies[AuthToken].value.text)];
    }
  }

  /** Why a request ended rejected: its own error, or the exception thrown while refreshing. */
  datatype Cause = OwnError | RefreshThrew

  /** What the response interceptor does with an error: re-issue the request, or reject. */
  datatype Verdict = Reissue | Reject(cause: Cause)

  /** The refresh branch runs exactly on a 401 for a request not yet retried. */
  predicate ShouldRefresh(status: Option<int>, retried: bool) {
    status == Some(401) && !retried
  }

  /** The cookie the refresh writes. */
  function RefreshedCookie(production: bool): Cookie {
    Cookie(Text(RefreshedAuthToken), StrictAttrs(1, production, false))
  }

  /**
   * The response interceptor's error handler.  On a first 401 it marks the
   * request retried; the refresh then either stores and attaches the new
   * token (and the request is re-issued) or throws, which removes both token
   * cookies.  Every other error is rejected untouched.
   */
  method OnResponseError(jar: CookieJar, config: RequestConfig, status: Option<int>,
                         refreshFails: bool, production: bool) returns (v: Verdict)
    requires jar.Valid()
    modifies jar, config
    ensures jar.Valid()
    ensures !ShouldRefresh(status, old(config.retry)) ==>
      v == Reject(OwnError) && jar.cookies == old(jar.cookies)
      && config.headers == old(config.headers) && config.retry == old(config.retry)
    ensures ShouldRefresh(status, old(config.retry)) && refreshFails ==>
      v == Reject(RefreshThrew) && config.retry
      && jar.cookies == old(jar.cookies) - {AuthToken, RefreshToken}
      && config.headers == old(config.headers)
    ensures ShouldRefresh(status, old(config.retry)) && !refreshFails ==>
      v == Reissue && config.retry
      && jar.cookies == old(jar.cookies)[AuthToken := RefreshedCookie(production)]
      && config.headers == old(config.headers)[Authorization := Bearer(RefreshedAuthToken)]
  {
    if status == Some(401) && !config.retry {
      config.retry := true;
      if refreshFails {
        jar.Remove(AuthToken);
        jar.Remove(RefreshToken);
        v := Reject(RefreshThrew);
      } else {
        var c := RefreshedCookie(production);
        jar.Set(AuthToken, c.value, c.attrs);
        config.headers := config.headers[Authorization := Bearer(RefreshedAuthToken)];
        v := Reissue;
      }
    } else {
      v := Reject(OwnError);
    }
  }

  /** What the server answers to one transmission. */
  datatype Reply = Success(okStatus: int) | Failure(status: Option<int>)

  /** How a call through the client ends. */
  datatype CallOutcome = Resolved(okStatus: int) | Rejected(status: Option<int>, cause: Cause)

  /** The outcome of a call whose last transmission got `r` and was not refreshed after. */
  function Settle(r: Reply): CallOutcome {
    match r
    case Success(s) => Resolved(s)
    case Failure(st) => Rejected(st, OwnError)
  }

  /**
   * `api(config)`: run the request interceptor, transmit, and on an error run
   * the response interceptor, which may re-issue the request through `api`
   * once more.  axios merges `config` into a fresh request object, so the
   * interceptors change that copy and the caller's `config` stays as it was;
   * the re-issue passes the copy, whose `_retry` is set, back to `api`.
   * `k` numbers the transmission; `sentHeaders` lists the headers of every
   * transmission made.  A request is transmitted at most twice, the second
   * time only after a 401 and with the refreshed token.
   */
  method Call(jar: CookieJar, config: RequestConfig, server: nat -> Reply,
              refreshFails: bool, production: bool, k: nat)
    returns (outcome: CallOutcome, sentHeaders: seq<map<string, string>>)
    requires jar.Valid()
    modifies jar
    decreases if config.retry then 0 else 1
    ensures jar.Valid()
    ensures config.headers == old(config.headers) && config.retry == old(config.retry)
    ensures 1 <= |sentHeaders| <= (if old(config.retry) then 1 else 2)
    ensures sentHeaders[0] == WithToken(old(jar.cookies), old(config.headers))
    ensures var first := server(k);
      if first.Success? || !ShouldRefresh(first.status, old(config.retry)) then
        |sentHeaders| == 1 && outcome == Settle(first) && jar.cookies == old(jar.cookies)
      else if refreshFails then
        |sentHeaders| == 1 && outcome == Rejected(Some(401), RefreshThrew)
        && jar.cookies == old(jar.cookies) - {AuthToken, RefreshToken}
      else
        |sentHeaders| == 2 && outcome == Settle(server(k + 1))
        && sentHeaders[1] == sentHeaders[0][Authorization := Bearer(RefreshedAuthToken)]
        && jar.cookies == old(jar.cookies)[AuthToken := RefreshedCookie(production)]
  {
    var request := new RequestConfig(config.headers, config.retry);
    AttachToken(jar, request);
    sentHeaders := [request.headers];
    var reply := server(k);
    match reply
    case Success(s) =>
      outcome := Resolved(s);
    case Failure(st) =>
      var v := OnResponseError(jar, request, st, refreshFails, production);
      if v == Reissue {
        var more;
        outcome, more := Call(jar, request, server, refreshFails, production, k + 1);
        sentHeaders := sentHeaders + more;
      } else {
        outcome := Rejected(st, v.cause);
      }
  }

  /** `login(email, password)`: the simulated backend answers with the fixed pair, whatever the credentials. */
  function Login(email: string, password: string): (p: TokenPair)
    ensures p.authToken == DummyAuthToken && p.refreshToken == DummyRefreshToken
  {
    TokenPair(DummyAuthToken, DummyRefreshToken)
  }

  /** `verifyOtp(otp)`: the same fixed pair, whatever the code. */
  function VerifyOtp(otp: string): (p: TokenPair)
    ensures p == Login("", "")
  {
    TokenPair(DummyAuthToken, DummyRefreshToken)
  }

  /** The cookie names `logout` removes. */
  const SessionCookies: set<string> := {AuthToken, RefreshToken, TempUserData, TempLoginData}

  /** `logout()`: remove the four session cookies and send the browser to the login page. */
  method Logout(jar: CookieJar) returns (location: string)
    requires jar.Valid()
    modifies jar
    ensures jar.Valid() && !IsAuthenticated(jar)
    ensures jar.cookies == old(jar.cookies) - SessionCookies
    ensures location == LoginRoute
  {
    jar.Remove(AuthToken);
    jar.Remove(RefreshToken);
    jar.Remove(TempUserData);
    jar.Remove(TempLoginData);
    location := LoginRoute;
  }

  /** Logging out twice leaves the store as logging out once; every other cookie survives. */
  lemma LogoutIdempotent(cookies: map<string, Cookie>)
    ensures (cookies - SessionCookies) - SessionCookies == cookies - SessionCookies
    ensures forall name :: name in cookies && name !in SessionCookies ==>
      name in cookies - SessionCookies && (cookies - SessionCookies)[name] == cookies[name]
  {
  }

  /**
   * A refresh that completes changes only the authToken cookie: the refresh
   * token, which the refresh never reads, and every other cookie stay as
   * they were.
   */
  method RefreshKeepsOtherCookies(jar: CookieJar, headers: map<string, string>, production: bool)
    returns (v: Verdict)
    requires jar.Valid()
    modifies jar
    ensures v == Reissue && IsAuthenticated(jar)
    ensures forall name :: name != AuthToken ==>
      (name in jar.cookies <==> name in old(jar.cookies))
    ensures forall name :: name != AuthToken && name in old(jar.cookies) ==>
      jar.cookies[name] == old(jar.cookies)[name]
  {
    var request := new RequestConfig(headers, false);
    v := OnResponseError(jar, request, Some(401), false, production);
  }
}
