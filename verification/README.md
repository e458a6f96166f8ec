# SMTP connection tester — Dafny model

This is a Dafny model of the two decision procedures in the SMTP tester (smtp-fly-check).
Each one turns a request into a result record `{success, message, logs, timestamp}`:

- **the simulated tester** (`handleTest` in the browser page). It performs no network I/O.
  It picks one of four canned outcomes from substrings of the host name ("error", then
  "timeout", then "auth" with a missing credential, otherwise success). It then builds a
  fixed log and summary for that outcome, and moves the page status through
  loading → success/error.
- **the `test-smtp` edge function**. It short-circuits a CORS preflight (`OPTIONS`). Otherwise
  it parses the request body, maps the request onto a mail-client configuration, logs each step,
  and calls the mail library's constructor, `send` and `close`. It has three exits: success,
  a library failure, and a request-parse failure.

Modules:

- `Text` (`text.dfy`) — `Occurs`, a reference definition of "`sub` occurs in `s`", and
  `Includes`, the recursive scan that stands for JavaScript's `String.prototype.includes`,
  proved equal to it.
- `SmtpTestData` (`smtp_test_data.dfy`) — the shared `Request` and `TestResult` records, the log-line templates
  both handlers write, and the facts that tell the templates apart. For example, only
  `ErrorLine` starts with "ERROR: ", and only `UsernameLine` starts with the username head.
- `SmtpTester` (`smtp_tester.dfy`) — `Classify`, `HandleTest` and the page's status sequence
  `TestCycle`.
- `TestSmtp` (`test_smtp.dfy`) — `ClientConfigOf`, `RunSmtpTest` (the inner `try`) and `Serve`
  (the whole handler). The mail library is a parameter `Library`: the outcome of construction,
  of `send` and of `close`, each either `Ok` or `Fail(detail)`, where `detail` is the thrown
  error's message. The model also records which library calls were made, in order, and with
  which configuration and mail.

Each log entry is modelled as its text, without the `[ISO-8601 time]` prefix. The result's
`timestamp` (`toLocaleTimeString()` of the completion time) is an opaque string parameter
`completedAt`.

Facts about the code that the model makes explicit:

- `close` is called only after `send` returns (supabase/functions/test-smtp/index.ts:59-66), so
  a throwing `send` leaves the client unclosed. `RunSmtpTest` and `SendFailureAfterConnect`
  state that `close` is not called in that case.
- The edge function does not check credentials before creating the client: a request with
  auth on and an empty username or password goes to the mail library as it is
  (supabase/functions/test-smtp/index.ts:36-52).
- The simulated tester tests for a missing credential only when the host contains "auth"
  (src/components/SmtpTester.tsx:68). The auth switch plays no part in that test
  (`AuthRequiredExactly`).
- The edge function reports every library failure with the same summary, "Failed to send
  email: {detail}" (supabase/functions/test-smtp/index.ts:86-88). Only the detail text
  distinguishes a refused connection from a timeout.
- "tls" and "ssl" both set the client's single `tls` flag
  (supabase/functions/test-smtp/index.ts:46, `ClientConfigOf`).

## Model

| member | source | states |
|---|---|---|
| Text.Includes | src/components/SmtpTester.tsx:50-68 | the host-name substring test is true exactly when the substring occurs at some position of the host |
| SmtpTester.HandleTest | src/components/SmtpTester.tsx:39-89 | the log opens with the start line and then the encryption line, and holds the username line third when auth is on. Its length is 2, plus 1 with auth, plus 4 on success or 1 on failure. A success ends in "Email sent successfully" with the fixed success message and no error entry. A failure ends in its single "ERROR:" entry, which is last. The timestamp is the completion time |
| SmtpTester.ErrorTakesPriority | src/components/SmtpTester.tsx:50-58 | a host containing "error" always gives the connection-refused failure with the opening log plus one error entry, even if it also contains "timeout" or "auth" |
| SmtpTester.TimeoutOnlyWithoutError | src/components/SmtpTester.tsx:59-67 | the timeout summary is reported if and only if the host contains "timeout" and does not contain "error". In that case the whole result is fixed: failure, the timeout summary, and the opening entries followed by "ERROR: Connection timeout" |
| SmtpTester.AuthRequiredExactly | src/components/SmtpTester.tsx:68-76 | the authentication-required summary is reported if and only if the host contains "auth", neither "error" nor "timeout", and the username or password is empty. In that case the whole result is fixed: failure, the authentication-required summary, and the opening entries followed by "ERROR: Authentication required". Flipping the auth switch never changes the summary |
| SmtpTester.DeliveredExactly | src/components/SmtpTester.tsx:77-89 | success holds if and only if none of the three failure tests fires. On success the log is the opening entries followed by connected, preparing, subject and sent, in that order |
| SmtpTester.UsernameLoggedIffAuth | src/components/SmtpTester.tsx:44-46 | some log entry is a username entry if and only if the auth switch is on |
| SmtpTester.PasswordNotLogged | src/components/SmtpTester.tsx:39-81 | two requests that differ only in password and message body, with passwords that are both empty or both non-empty, give identical results |
| SmtpTester.PasswordEmptinessObservable | src/components/SmtpTester.tsx:68 | on the host "auth", an empty password gives failure and a non-empty one gives success, so the password's emptiness does reach the result |
| SmtpTester.TestCycle | src/components/SmtpTester.tsx:28-89 | one run makes three state updates. After the first, the status is loading and the previous result is kept. After the second, the new result is stored while the status is still loading. After the third, the status is the one its branch sets: success for the delivered branch and error for the three failure branches. That status is neither idle nor loading, and it is success exactly when the stored result reports success |
| TestSmtp.ClientConfigOf | supabase/functions/test-smtp/index.ts:42-52 | hostname and port are passed through. `tls` is true if and only if encryption is not "none". Credentials are present if and only if auth is on, and then they hold the request's username and password |
| TestSmtp.CallsMade | supabase/functions/test-smtp/index.ts:40-66 | the library calls made form a non-empty prefix of construct, send, close. `send` is called if and only if construction returned, and `close` if and only if construction and `send` both returned |
| TestSmtp.RunSmtpTest | supabase/functions/test-smtp/index.ts:32-96 | success holds if and only if construction, `send` and `close` all return. The calls made are a non-empty prefix of construct, send, close. `send` is called exactly when construction returned, and `close` exactly when construction and `send` returned. When construction throws, the only call is the construction and the log is the opening entries plus one error entry. The log always starts with the opening entries, and with connected, preparing and subject as well whenever `send` was attempted. A success logs "Email sent successfully" with the fixed message. A failure ends in one "ERROR: {detail}" entry and has the summary "Failed to send email: {detail}", where detail is the message of the first call that threw |
| TestSmtp.Serve | supabase/functions/test-smtp/index.ts:23-113 | an OPTIONS request gets a body-less response with only the CORS headers and makes no library call. Status 400 is given exactly for a body that fails to parse, with success false, summary "Request error: {msg}", a one-entry "ERROR: {msg}" log, the completion time as timestamp, and no library call. A parsed body gets status 200 and the inner result |
| TestSmtp.SendFailureAfterConnect | supabase/functions/test-smtp/index.ts:54-66 | when `send` throws, the log still contains "Successfully connected to SMTP server", it ends in the error entry, and `close` is never called |
| TestSmtp.SentLoggedIffAllReturn | supabase/functions/test-smtp/index.ts:59-68 | "Email sent successfully" appears in the log if and only if construction, `send` and `close` all return |
| TestSmtp.UsernameLoggedIffAuth | supabase/functions/test-smtp/index.ts:36-38 | some log entry is a username entry if and only if auth is on, whatever the library does |
| TestSmtp.PasswordNotLogged | supabase/functions/test-smtp/index.ts:32-95 | for the same library outcomes, requests that differ only in password and message body get identical results. With auth off they also get the same client configuration |
| TestSmtp.SimulationMatchesService | src/components/SmtpTester.tsx:39-89 | a simulated success equals the edge function's result when every library call returns. A simulated failure has exactly the log the edge function writes when client construction throws with the same error detail |

## Left out

- Time: the `[ISO-8601]` prefix of each log entry, `toLocaleTimeString()` and the two-second
  simulated delay are clock and async effects. Entries are their text, and the completion time
  is a parameter.
- The SMTP conversation (connection, STARTTLS/TLS, authentication, transmission, quit) lives
  in the mail library, which is not part of this model. Each library call is an abstract
  outcome, so no lemma says which requests the server accepts.
- TestSmtp.PasswordNotLogged: states that the password is not logged for fixed library
  outcomes. In reality the outcomes may depend on the password, and the library's error message
  is not inspected.
- JSON parsing of the body is a parameter (`Parsed`/`Malformed`). Missing fields, values of the
  wrong type, and an encryption value outside "none"/"tls"/"ssl" are not modelled, because the
  request type admits only the three names.
- A thrown value without a `message` (which JavaScript would render as "undefined"), and an
  exception raised inside the inner `catch` block, are not modelled: every failure carries a
  string detail.
- `parseInt(port)` is not modelled. The port is passed to the client configuration as the text
  that was typed.
- HTTP serving, the CORS header values, `console.error`, and methods other than OPTIONS (these
  are treated like any other call whose body is then parsed).
- The form, result panel and page markup hold no logic beyond passing the busy flag and
  rendering the result.
