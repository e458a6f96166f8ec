/**
  The data shared by the browser-side simulated tester and the `test-smtp`
  edge function: the form/request record, the result record, and the log
  line templates both of them write. A log entry is modelled as its text; the
  `[ISO-8601 time]` prefix each entry carries in the source is left out, and
  the result's `timestamp` is an opaque string supplied by the caller.
 */
module SmtpTestData {

  datatype Option<+T> = None | Some(value: T)

  /** The three encryption choices of the form, named as the form sends them. */
  datatype Encryption = Unencrypted | Tls | Ssl {
    function Name(): string {
      match this
      case Unencrypted => "none"
      case Tls => "tls"
      case Ssl => "ssl"
    }
  }

  /** The form data / request body; `port` stays the text the user typed. */
  datatype Request = Request(
    host: string,
    port: string,
    username: string,
    password: string,
    encryption: Encryption,
    from: string,
    to: string,
    subject: string,
    message: string,
    auth: bool)

  /** What both handlers report back: verdict, summary, ordered log, completion time. */
  datatype TestResult = TestResult(success: bool, message: string, logs: seq<string>, timestamp: string)

  const StartHead := "Starting SMTP test for "
  const UserHead := "Using authentication with username: "
  const ErrorHead := "ERROR: "
  const ConnectedLine := "Successfully connected to SMTP server"
  const SentLine := "Email sent successfully"
  const SuccessMessage := "Successfully connected to SMTP server and sent test email!"

  function StartLine(host: string, port: string): string {
    StartHead + host + ":" + port
  }

  function ConnectLine(encryption: Encryption): string {
    "Attempting to connect with " + encryption.Name() + " encryption"
  }

  function UsernameLine(username: string): string {
    UserHead + username
  }

  function PreparingLine(from: string, to: string): string {
    "Preparing test email from " + from + " to " + to
  }

  function SubjectLine(subject: string): string {
    "Email subject: " + subject
  }

  function ErrorLine(detail: string): string {
    ErrorHead + detail
  }

  /** The entries both handlers write first: start, encryption, and the username when auth is on. */
  function Opening(req: Request): seq<string> {
    [StartLine(req.host, req.port), ConnectLine(req.encryption)]
    + (if req.auth then [UsernameLine(req.username)] else [])
  }

  /** The three entries written once the connection is (taken to be) established. */
  function Delivery(req: Request): seq<string> {
    [ConnectedLine, PreparingLine(req.from, req.to), SubjectLine(req.subject)]
  }

  predicate IsErrorLine(line: string) {
    ErrorHead <= line
  }

  predicate IsUsernameLine(line: string) {
    UserHead <= line
  }

  function Last(logs: seq<string>): string
    requires |logs| > 0
  {
    logs[|logs| - 1]
  }

  /** No entry of `lines` reports an error. */
  predicate Quiet(lines: seq<string>) {
    forall i :: 0 <= i < |lines| ==> !IsErrorLine(lines[i])
  }

  /** The log ends in its one and only error entry. */
  predicate EndsInSingleError(logs: seq<string>) {
    |logs| > 0 && IsErrorLine(Last(logs)) && Quiet(logs[..|logs| - 1])
  }

  /** Two requests that agree on every field any log entry or summary is built from:
      they may differ only in `password` and in the message body. */
  predicate SameLoggedFields(a: Request, b: Request) {
    a.(password := b.password, message := b.message) == b
  }

  /** A line whose first character differs from the first character of `head` does not start with `head`. */
  lemma DifferentFirstChar(head: string, line: string)
    requires |head| > 0 && |line| > 0 && head[0] != line[0]
    ensures !(head <= line)
  {
  }

  /** Every fixed line template except `ErrorLine` starts with something other than "ERROR: ",
      and every one except `UsernameLine` with something other than the username head. */
  lemma TemplateHeads(req: Request, detail: string)
    ensures !IsErrorLine(StartLine(req.host, req.port)) && !IsUsernameLine(StartLine(req.host, req.port))
    ensures !IsErrorLine(ConnectLine(req.encryption)) && !IsUsernameLine(ConnectLine(req.encryption))
    ensures !IsErrorLine(UsernameLine(req.username)) && IsUsernameLine(UsernameLine(req.username))
    ensures !IsErrorLine(ConnectedLine) && !IsUsernameLine(ConnectedLine)
    ensures !IsErrorLine(PreparingLine(req.from, req.to)) && !IsUsernameLine(PreparingLine(req.from, req.to))
    ensures !IsErrorLine(SubjectLine(req.subject)) && !IsUsernameLine(SubjectLine(req.subject))
    ensures !IsErrorLine(SentLine) && !IsUsernameLine(SentLine)
    ensures IsErrorLine(ErrorLine(detail)) && !IsUsernameLine(ErrorLine(detail))
  {
    var start := StartLine(req.host, req.port);
    assert start[0] == 'S';
    DifferentFirstChar(ErrorHead, start);
    DifferentFirstChar(UserHead, start);
    var connect := ConnectLine(req.encryption);
    assert connect[0] == 'A';
    DifferentFirstChar(ErrorHead, connect);
    DifferentFirstChar(UserHead, connect);
    var user := UsernameLine(req.username);
    assert user[0] == 'U';
    DifferentFirstChar(ErrorHead, user);
    DifferentFirstChar(ErrorHead, ConnectedLine);
    DifferentFirstChar(UserHead, ConnectedLine);
    var preparing := PreparingLine(req.from, req.to);
    assert preparing[0] == 'P';
    DifferentFirstChar(ErrorHead, preparing);
    DifferentFirstChar(UserHead, preparing);
    var subject := SubjectLine(req.subject);
    assert subject[1] == 'm';
    assert !(ErrorHead <= subject) by { assert ErrorHead[1] != subject[1]; }
    DifferentFirstChar(UserHead, subject);
    assert !(ErrorHead <= SentLine) by { assert ErrorHead[1] != SentLine[1]; }
    DifferentFirstChar(UserHead, SentLine);
    var error := ErrorLine(detail);
    assert error[0] == 'E';
    DifferentFirstChar(UserHead, error);
  }

  /** The opening entries hold no error, and hold a username entry exactly when auth is on. */
  lemma OpeningShape(req: Request)
    ensures Quiet(Opening(req))
    ensures req.auth <==> exists i :: 0 <= i < |Opening(req)| && IsUsernameLine(Opening(req)[i])
  {
    TemplateHeads(req, "");
    if req.auth {
      assert IsUsernameLine(Opening(req)[2]);
    }
  }

  /** The delivery entries hold neither an error nor a username entry. */
  lemma DeliveryShape(req: Request)
    ensures Quiet(Delivery(req))
    ensures forall i :: 0 <= i < |Delivery(req)| ==> !IsUsernameLine(Delivery(req)[i])
  {
    TemplateHeads(req, "");
  }

  /** "Email sent successfully" is none of the entries written before it. */
  lemma SentLineIsNew(req: Request)
    ensures forall i :: 0 <= i < |Opening(req) + Delivery(req)| ==> (Opening(req) + Delivery(req))[i] != SentLine
  {
    assert SentLine[0] == 'E' && SentLine[7] == 'e';
    assert StartLine(req.host, req.port)[0] == 'S';
    assert ConnectLine(req.encryption)[0] == 'A';
    assert UsernameLine(req.username)[0] == 'U';
    assert PreparingLine(req.from, req.to)[0] == 'P';
    assert SubjectLine(req.subject)[7] == 'u';
  }

  /** A log made of the opening entries followed by entries that are not username
      entries holds a username entry exactly when auth is on. */
  lemma UsernameOnlyInOpening(req: Request, rest: seq<string>)
    requires forall i :: 0 <= i < |rest| ==> !IsUsernameLine(rest[i])
    ensures req.auth <==> exists i :: 0 <= i < |Opening(req) + rest| && IsUsernameLine((Opening(req) + rest)[i])
  {
    OpeningShape(req);
    var logs := Opening(req) + rest;
    if req.auth {
      assert IsUsernameLine(logs[2]);
    } else {
      forall i | 0 <= i < |logs|
        ensures !IsUsernameLine(logs[i])
      {
        if i >= |Opening(req)| {
          assert logs[i] == rest[i - |Opening(req)|];
        } else {
          assert logs[i] == Opening(req)[i];
        }
      }
    }
  }

  /** Quiet entries followed by one error entry end in a single error. */
  lemma QuietThenError(quiet: seq<string>, detail: string)
    requires Quiet(quiet)
    ensures EndsInSingleError(quiet + [ErrorLine(detail)])
  {
  }

  lemma QuietAppend(a: seq<string>, b: seq<string>)
    requires Quiet(a) && Quiet(b)
    ensures Quiet(a + b)
  {
  }
}
