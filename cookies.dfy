/**
 * The browser cookie store as the client code sees it through `js-cookie`:
 * a single mutable jar keyed by cookie name.  Values the app writes as JSON
 * text are kept as structured records instead of strings.
 */
module Cookies {

  const AuthToken := "authToken"
  const RefreshToken := "refreshToken"
  const TempUserData := "tempUserData"
  const TempLoginData := "tempLoginData"

  /** What a cookie holds: plain text (the tokens) or one of the app's two JSON payloads. */
  datatype CookieValue =
    | Text(text: string)
    | SignupRecord(name: string, email: string, password: string)
    | LoginRecord(email: string)

  /** The attributes passed to `Cookies.set`; `expiresDays` is the `expires` option in days. */
  datatype CookieAttrs = CookieAttrs(expiresDays: nat, sameSite: string, secure: bool, httpOnly: bool)

  datatype Cookie = Cookie(value: CookieValue, attrs: CookieAttrs)

  /** The attributes every cookie of the app uses: strict same-site, secure only in production. */
  function StrictAttrs(days: nat, production: bool, httpOnly: bool): CookieAttrs
  {
    CookieAttrs(days, "strict", production, httpOnly)
  }

  /**
   * `Cookies.get(name)` used as a condition: present and not the empty string.
   * JSON payloads are never empty text.
   */
  predicate Truthy(jar: map<string, Cookie>, name: string) {
    name in jar && jar[name].value != Text("")
  }

  /** The token cookies only ever hold text; everything the app writes keeps this. */
  predicate TokensAreText(jar: map<string, Cookie>) {
    (AuthToken in jar ==> jar[AuthToken].value.Text?) &&
    (RefreshToken in jar ==> jar[RefreshToken].value.Text?)
  }

  /**
   * No cookie carries HttpOnly: the jar is what `document.cookie` shows, and
   * a browser hides HttpOnly cookies from it (section 5.4 of RFC 6265).
   */
  predicate ScriptVisible(jar: map<string, Cookie>) {
    forall name :: name in jar ==> !jar[name].attrs.httpOnly
  }

  /**
   * The cookies js-cookie can see and change: every one `document.cookie`
   * shows, so reads, writes and removes never meet an HttpOnly cookie.
   */
  class CookieJar {
    var cookies: map<string, Cookie>

    ghost predicate Valid()
      reads this
    {
      TokensAreText(cookies) && ScriptVisible(cookies)
    }

    constructor (initial: map<string, Cookie>)
      requires TokensAreText(initial) && ScriptVisible(initial)
      ensures Valid() && cookies == initial
    {
      cookies := initial;
    }

    /**
     * `Cookies.set(name, value, attrs)`: overwrites any cookie of that name.
     * js-cookie writes the cookie through `document.cookie`, a non-HTTP API,
     * so a cookie carrying the HttpOnly attribute is dropped entirely
     * (section 5.3 of RFC 6265) and the jar keeps what it had.
     */
    method Set(name: string, value: CookieValue, attrs: CookieAttrs)
      requires Valid()
      requires (name == AuthToken || name == RefreshToken) ==> value.Text?
      modifies this
      ensures Valid()
      ensures attrs.httpOnly ==> cookies == old(cookies)
      ensures !attrs.httpOnly ==> cookies == old(cookies)[name := Cookie(value, attrs)]
    {
      if !attrs.httpOnly {
        cookies := cookies[name := Cookie(value, attrs)];
      }
    }

    /** `Cookies.remove(name)`: removing an absent cookie is a no-op. */
    method Remove(name: string)
      requires Valid()
      modifies this
      ensures Valid()
      ensures cookies == old(cookies) - {name}
    {
      cookies := cookies - {name};
    }
  }
}
