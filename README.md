# OTP sign-up and login flow: a Dafny model

This project models the logic of a demonstration authentication app: the
signup and login forms, the one-time-passcode (OTP) verification pages, the
endpoint that emails the code, and the client helpers that store and refresh
the session tokens in cookies.

- `SendOtpRoute` (`send_otp_route.dfy`) is `POST /api/send-otp`. It is a
  chain of guards on `{email, otp}`: presence first, then `EMAIL_REGEX`, then
  `OTP_REGEX`. Then the notifier is called exactly once. The email regex is
  given twice: as regular-expression semantics and as a one-pass scan. A
  lemma proves the two agree. `Options` is the CORS preflight answer.
- `OtpVerify` (`otp_verify.dfy`) is the verification page. The signup and the
  login pages are one class, `VerifyPage`, set up by a `PageConfig`: the temp
  cookie it reads, the fallback and success routes, and the mismatch message.
  `GenerateOtp` and `FormatTime` are pure functions. `ParseTime` is the
  inverse of `FormatTime`. The page's steps are methods: mount, the two
  halves of a send, the timer tick, resend and submit. `Valid()` says the
  countdown is between 0 and 300 and that resend is disabled exactly while
  the countdown runs.
- `AuthClient` (`auth_client.dfy`) is the axios client and cookie helpers.
  `Call` is `api(config)`: the request interceptor, one transmission, and
  the response interceptor. That interceptor may re-issue the request once,
  by recursion. The recursion's `decreases` clause is the `_retry` flag, so
  termination is the bound on retries.
- `SignupPage` and `LoginPage` (`signup_page.dfy`, `login_page.dfy`) are the
  two form schemas and their `onSubmit` handlers. `FormFields` holds the
  email field they share. The signup password pattern is given as regex
  semantics (lookaheads included) and as a one-pass `Scan`. A lemma proves
  the two agree.
- `Cookies` (`cookies.dfy`) is the cookie jar shared by all pages: a class
  over a `map` from cookie name to a structured value with its attributes.
  It holds what `document.cookie` shows, so it never holds an HttpOnly
  cookie.
  `Text`, `Wrappers` hold digits, JavaScript whitespace, decimal rendering
  and `Option`.

Collaborators that are not code of the app are parameters:

- the email notifier (`notify`);
- `Math.random` (an integer `draw` in [0, 900000));
- `fetch`'s result (`FetchResult`);
- the server's reply to each transmission (`server`);
- whether the simulated refresh throws (`refreshFails`);
- whether a form's cookie write throws (`writeFails`);
- yup's address check (`looksLikeEmail`);
- `NODE_ENV` (`nodeEnv`, `production`).

The code has no server-side challenge store, no expiry check when a code is
verified, no attempt limit, no refresh-token rotation and no refresh shared
between concurrent requests, so the model has none of them either. The
countdown is never read on submit, and a 401 retry is bounded only by the
per-request `_retry` flag.

The verification pages write the refresh token with `httpOnly: true`.
js-cookie writes through `document.cookie`, and a browser drops a cookie
with the HttpOnly attribute set through that interface entirely (section 5.3
of RFC 6265). The model's cookie jar does the same, so a successful
verification stores the access token but never the refresh token.

## Model

| member | source | states |
|---|---|---|
| `SendOtpRoute.Post` | src/app/api/send-otp/route.ts:7-51 | status is 200, 400 or 500; 400 exactly when the fields fail a guard; the notifier is called exactly when all three guards pass, with that email and OTP; 200 (with `{success:true}`) exactly when it reports `true` |
| `SendOtpRoute.RequiredCheckedFirst` | src/app/api/send-otp/route.ts:12-17 | a missing or empty email or OTP gives 400 "Email and OTP are required" before any format check, and no notifier call |
| `SendOtpRoute.EmailErrorTakesPriority` | src/app/api/send-otp/route.ts:19-31 | with both present and a bad email, the answer is "Invalid email format" whatever the OTP is |
| `SendOtpRoute.OtpFormatRejected` | src/app/api/send-otp/route.ts:26-31 | a good email with an OTP that is not six ASCII digits gives 400 "Invalid OTP format. Must be 6 digits." |
| `SendOtpRoute.NotSentIsServerError` | src/app/api/send-otp/route.ts:33-40 | a notifier answering `false` gives 500 "Failed to send OTP. Please try again." |
| `SendOtpRoute.ExceptionDetailsOnlyInDevelopment` | src/app/api/send-otp/route.ts:43-49 | an unparsable body or a throwing notifier gives 500 "Failed to send OTP", with `details` present exactly when NODE_ENV is 'development' |
| `SendOtpRoute.Options` | src/app/api/send-otp/route.ts:54-63 | the preflight is always 204 with origin `*`, methods `POST, OPTIONS`, headers `Content-Type` |
| `SendOtpRoute.EmailTestMatchesRegex` | src/app/api/send-otp/route.ts:4 | the scan accepts exactly the strings `^[^\s@]+@[^\s@]+\.[^\s@]+$` matches, with JavaScript's `\s` |
| `SendOtpRoute.AcceptedEmailShape` | src/app/api/send-otp/route.ts:19 | an accepted email has no whitespace, exactly one '@' with a non-empty part before it, and a '.' after the '@' with a character on each side |
| `OtpVerify.GenerateOtp` | src/app/signup/verify/page.tsx:43-45 | the code is six ASCII digits, has no leading zero, and denotes 100000 + draw, so it lies in [100000, 999999] |
| `OtpVerify.GenerateOtpInjective` | src/app/login/verify/page.tsx:41-43 | two draws give the same code exactly when they are equal |
| `OtpVerify.FormatTimeFields` | src/app/signup/verify/page.tsx:117-121 | the display is the decimal minutes `s / 60`, ':', and exactly two digits denoting `s % 60` |
| `OtpVerify.FormatTimeRoundTrip` | src/app/login/verify/page.tsx:102-106 | reading a display back gives the seconds it was made from |
| `OtpVerify.ParseTimeCanonical` | src/app/signup/verify/page.tsx:117-121 | every well-formed `m:ss` display is the one `formatTime` gives for its value |
| `OtpVerify.FormatTimeExamples` | src/app/signup/verify/page.tsx:117-121 | 300 shows as "5:00", 65 as "1:05", 0 as "0:00" |
| `OtpVerify.OtpFieldError` | src/app/signup/verify/page.tsx:12-17 | the OTP field passes exactly on six ASCII digits; an empty field reports "OTP is required", any other failing one "OTP must be 6 digits" |
| `OtpVerify.SendError` | src/app/signup/verify/page.tsx:86-96 | a failed response shows the server's `error` when it is non-empty, and "Failed to send OTP" when it is empty or absent; a rejected fetch shows its own message |
| `OtpVerify.VerifyPage.constructor` | src/app/signup/verify/page.tsx:25-28 | the page starts with countdown 300, resend disabled, no code, no error, nothing sent |
| `OtpVerify.VerifyPage.BeginSend` | src/app/login/verify/page.tsx:46-55 | a send raises `isSendingOtp`, clears `error` and posts `{email, otp}`; nothing else changes |
| `OtpVerify.VerifyPage.Mount` | src/app/signup/verify/page.tsx:52-69 | with the temp cookie the page takes its email, stores `GenerateOtp(draw)` and sends exactly that code; without it the page goes to the fallback route, generates nothing and sends nothing |
| `OtpVerify.VerifyPage.CompleteSend` | src/app/login/verify/page.tsx:57-70 | success resets the countdown to 300 with resend disabled; failure sets only `error`; `isSendingOtp` is false after both |
| `OtpVerify.VerifyPage.Tick` | src/app/signup/verify/page.tsx:103-115 | a tick lowers a positive countdown by exactly 1 and never below 0; resend becomes enabled when it reaches 0; nothing else changes |
| `OtpVerify.VerifyPage.Resend` | src/app/login/verify/page.tsx:108-113 | callable only while the button is enabled (resend enabled and no send in flight); without an email nothing changes; otherwise the stored code is replaced by `GenerateOtp(draw)` before that new code is sent |
| `OtpVerify.VerifyPage.Submit` | src/app/signup/verify/page.tsx:130-171 | a schema failure changes nothing; a code equal to the stored one removes the temp cookie, stores authToken (1 day), leaves refreshToken as it was (its HttpOnly write is refused), goes to the success route and authenticates; any other code sets the mismatch message and leaves cookies, code and route alone; the countdown plays no part |
| `OtpVerify.EmptyCodeNeverVerifies` | src/app/signup/verify/page.tsx:136-138 | submitting any input on a fresh page, whose code is still empty, never navigates and leaves the cookies as they were |
| `OtpVerify.ResendInvalidatesPreviousCode` | src/app/signup/verify/page.tsx:123-128 | after a resend with a different draw and either outcome of its send, submitting the previous code shows the mismatch message, does not navigate and leaves the cookies as they were |
| `OtpVerify.EndpointAcceptsGeneratedCode` | src/app/login/verify/page.tsx:81-83 | a generated code always passes the endpoint's OTP check, so with a valid email the notifier is called with exactly that code |
| `OtpVerify.EndpointErrorShownVerbatim` | src/app/login/verify/page.tsx:57-60 | every non-200 answer of the endpoint is a failed send, and the page shows the endpoint's own error text |
| `OtpVerify.PageStoresVerifyOtpPair` | src/app/login/verify/page.tsx:143-158 | the tokens a page writes on a match are the pair `verifyOtp` returns |
| `AuthClient.WithToken` | src/utils/auth.ts:17-23 | the header map gains `Authorization: Bearer <token>` exactly when a non-empty authToken cookie exists, and is otherwise unchanged |
| `AuthClient.IsAuthenticated` | src/utils/auth.ts:126-129 | true exactly when a non-empty authToken cookie exists |
| `AuthClient.AttachToken` | src/utils/auth.ts:16-27 | the request interceptor leaves exactly those headers on the config and does not touch `_retry` |
| `AuthClient.OnResponseError` | src/utils/auth.ts:36-78 | on a 401 for a request not yet retried: `_retry` is set; then either authToken is rewritten to 'new-dummy-auth-token' with the header updated and the request re-issued, or (refresh threw) both token cookies are removed and the call rejects; every other error rejects with cookies and config untouched |
| `AuthClient.Call` | src/utils/auth.ts:36-66 | a request is transmitted at most twice, the second time only after a first 401 and only with the refreshed bearer header; a second 401 is rejected; the cookie store ends unchanged, with only authToken rewritten, or with both tokens removed; `_retry` lives on a per-call copy, so the caller's config keeps its headers and flag and a later call with it may refresh again |
| `AuthClient.RefreshKeepsOtherCookies` | src/utils/auth.ts:53-60 | a first 401 whose refresh completes re-issues the request and leaves the client authenticated, and changes no cookie but authToken; the refresh token stays as it was |
| `AuthClient.Login` | src/utils/auth.ts:82-94 | login returns ('dummy-auth-token', 'dummy-refresh-token') whatever the credentials |
| `AuthClient.VerifyOtp` | src/utils/auth.ts:96-108 | verifyOtp returns the same fixed pair as login, whatever the code |
| `AuthClient.Logout` | src/utils/auth.ts:110-124 | exactly authToken, refreshToken, tempUserData and tempLoginData are removed, the client is no longer authenticated, and the browser goes to /login |
| `AuthClient.LogoutIdempotent` | src/utils/auth.ts:110-115 | logging out twice leaves the store as logging out once, and every other cookie survives |
| `FormFields.EmailFieldError` | src/app/signup/page.tsx:14-17 | the email field passes exactly when it is non-empty and yup's address check accepts it; an empty field reports "Email is required", any other failing one "Please enter a valid email" |
| `SignupPage.Scan` | src/app/signup/page.tsx:23 | one pass reports exactly which of lower case, upper case, digit and `@$!%*?&` occur, and whether every character is allowed |
| `SignupPage.StrongPasswordMatchesRegex` | src/app/signup/page.tsx:23 | the policy check accepts exactly the strings the password pattern matches, lookaheads included |
| `SignupPage.PasswordFieldError` | src/app/signup/page.tsx:18-25 | the password passes exactly when the pattern accepts it, so `min(8)` never rejects a pattern-valid password; an empty one reports "Password is required", a short one the minimum-length message, and one of 8 or more characters that fails the pattern the complexity message |
| `SignupPage.Validate` | src/app/signup/page.tsx:12-26 | a form passes exactly with a non-empty name, a non-empty accepted email and a password the pattern accepts |
| `SignupPage.SignupFormPage.constructor` | src/app/signup/page.tsx:32-33 | the page starts with no error and no navigation |
| `SignupPage.SignupFormPage.Submit` | src/app/signup/page.tsx:48-74 | a schema failure changes nothing; otherwise the whole form is stored in tempUserData (1 day, strict) and the page goes to /signup/verify, or, if the write throws, nothing is stored and the signup error is shown |
| `SignupPage.HandoffToVerifyPage` | src/app/signup/page.tsx:57-61 | the cookie a signup writes makes the signup verification page find it and use the form's email |
| `LoginPage.Validate` | src/app/login/page.tsx:12-18 | the password need only be non-empty; a form passes exactly with a non-empty accepted email and a non-empty password |
| `LoginPage.Payload` | src/app/login/page.tsx:47 | the stored payload is the email alone |
| `LoginPage.PasswordNeverStored` | src/app/login/page.tsx:47 | two logins that differ only in the password store the same cookie |
| `LoginPage.LoginFormPage.constructor` | src/app/login/page.tsx:24-25 | the page starts with no error and no navigation |
| `LoginPage.LoginFormPage.Submit` | src/app/login/page.tsx:35-64 | a schema failure changes nothing; otherwise `{email}` is stored in tempLoginData (1 day, strict) and the page goes to /login/verify, or, if the write throws, nothing is stored and "Invalid credentials. Please try again." is shown |
| `LoginPage.HandoffToVerifyPage` | src/app/login/page.tsx:47-51 | the cookie a login writes makes the login verification page find it and use the form's email |

## Left out

- src/lib/email.ts is not part of this model. The notifier is a parameter. Its SMTP transport and configuration checks are foreign I/O.
- Body fields that are JSON values other than strings (numbers, objects) are not modelled. A field is either absent or text.
- `NextResponse.json`'s own headers and all console logging are not modelled.
- `Math.random` is not modelled. It is an integer draw, so floating point is not needed.
- Timers are explicit steps. The 1-second `setTimeout` delays are not modelled.
- `CompleteSend` is not tied to a pending send: the model lets it run with no send in flight, and lets `Mount` start a send while another is in flight. `Resend` requires the enabled button, as the UI does.
- A React effect is not re-run when a state is set to the value it already has. The model does not track this; it does not change any modelled value.
- JSON.parse and JSON.stringify are not modelled: cookie payloads are records. A temp cookie holding text that is not JSON would make the mount effect throw. That case is not modelled; `PayloadEmail` gives "" for a text cookie.
- Strings are sequences of characters, not UTF-16 code units. `min(8)` therefore counts an astral-plane character once, where JavaScript counts it twice. `\d{6}` accepts the same strings either way, since such a character is never a digit.
- yup's `.email()` test is a parameter, because it is library code.
- The field-error order follows declaration order: `required`, `min`, then `matches`. This is the first failing test in each field.
- The spinner state between `setIsSubmitting(true)` and the end of `onSubmit` is not modelled. Each submit runs as one step, so `isSubmitting` is false between steps.
- Exceptions in the form handlers are modelled only as a failing cookie write (`writeFails`).
- The 'Failed to send OTP. Please try again.' branch of `sendOtp` is not modelled. It needs a thrown value that is not an `Error`, and `fetch` never throws one. Non-string `error` fields in a failed response are not modelled either.
- A refresh that throws is modelled as throwing before its cookie write.
- `secure` is the `production` parameter.
- `AuthClient.Logout`: always returns the /login location. The source assigns it only when `window` exists, so server-side rendering is not modelled.
- `AuthClient.Call`: the re-issued request is not awaited inside the `try`. So its rejection is returned as is and never clears cookies. The model reflects this by settling the call on the second reply without touching cookies.
- The markup (layout, pages, MUI widgets, react-hook-form wiring) has no logic and is not modelled.
