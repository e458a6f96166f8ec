/**
  The `test-smtp` edge function: answers a CORS preflight, otherwise reads the
  request body, configures a mail client, sends one message and closes the
  client, logging each step. The mail client library is not part of this model:
  what each of its three calls does is a parameter (`Library`), and the model
  records which calls were made and with what.
 */
module TestSmtp {
  import opened SmtpTestData
  import SmtpTester

  const SendFailureHead := "Failed to send email: "
  const RequestErrorHead := "Request error: "

  /** How one library call ends: it returns, or it throws an error with this message. */
  datatype Outcome = Ok | Fail(detail: string)

  /** The outcomes of constructing the client, of `send` and of `close`, in that order. */
  datatype Library = Library(construct: Outcome, send: Outcome, close: Outcome)

  datatype Credentials = Credentials(username: string, password: string)

  /** The client's connection settings; `port` is passed on as typed (its numeric parse is not modelled). */
  datatype ClientConfig = ClientConfig(hostname: string, port: string, tls: bool, auth: Option<Credentials>)

  datatype Mail = Mail(from: string, to: string, subject: string, content: string)

  datatype ClientCall = Construct(config: ClientConfig) | Send(mail: Mail) | Close

  /** Outcome of the request body's JSON parse. */
  datatype Body = Parsed(req: Request) | Malformed(error: string)

  datatype HttpRequest = HttpRequest(verb: string, body: Body)

  /** The preflight answer carries only the CORS headers; every other answer is JSON. */
  datatype Headers = Cors | CorsJson

  datatype Response = Response(status: int, headers: Headers, body: Option<TestResult>)

  /** A test run's result together with the library calls it made, in order. */
  datatype Attempt = Attempt(result: TestResult, calls: seq<ClientCall>)

  datatype Exchange = Exchange(response: Response, calls: seq<ClientCall>)

  /** The client configuration built from the request. */
  function ClientConfigOf(req: Request): (c: ClientConfig)
    ensures c.hostname == req.host && c.port == req.port
    ensures c.tls <==> req.encryption != Unencrypted
    ensures c.auth.Some? <==> req.auth
    ensures c.auth.Some? ==> c.auth.value.username == req.username && c.auth.value.password == req.password
  {
    ClientConfig(
      req.host,
      req.port,
      req.encryption == Tls || req.encryption == Ssl,
      if req.auth then Some(Credentials(req.username, req.password)) else None)
  }

  function MailOf(req: Request): Mail {
    Mail(req.from, req.to, req.subject, req.message)
  }

  /** The calls a test run makes when every call returns. */
  function AllCalls(req: Request): seq<ClientCall> {
    [Construct(ClientConfigOf(req)), Send(MailOf(req)), Close]
  }

  /** The library calls made, in order: each call is reached only if the one before it returned. */
  function CallsMade(req: Request, lib: Library): (calls: seq<ClientCall>)
    ensures 1 <= |calls| && calls <= AllCalls(req)
    ensures Send(MailOf(req)) in calls <==> lib.construct == Ok
    ensures Close in calls <==> lib.construct == Ok && lib.send == Ok
  {
    var construct, send := Construct(ClientConfigOf(req)), Send(MailOf(req));
    if lib.construct.Fail? then [construct]
    else if lib.send.Fail? then [construct, send]
    else [construct, send, Close]
  }

  /** The error message of the first library call that throws, if one does. */
  function FirstFailure(lib: Library): Option<string> {
    if lib.construct.Fail? then Some(lib.construct.detail)
    else if lib.send.Fail? then Some(lib.send.detail)
    else if lib.close.Fail? then Some(lib.close.detail)
    else None
  }

  function Failed(logs: seq<string>, detail: string, completedAt: string): TestResult {
    TestResult(false, SendFailureHead + detail, logs + [ErrorLine(detail)], completedAt)
  }

  /** The inner `try` of the handler: configure, log, send, close, log. */
  function RunSmtpTest(req: Request, lib: Library, completedAt: string): (a: Attempt)
    ensures a.result.timestamp == completedAt
    ensures a.result.success <==> FirstFailure(lib) == None
    ensures 1 <= |a.calls| && a.calls <= AllCalls(req)
    ensures Send(MailOf(req)) in a.calls <==> lib.construct == Ok
    ensures Close in a.calls <==> lib.construct == Ok && lib.send == Ok
    ensures lib.construct.Fail? ==>
              && a.calls == [Construct(ClientConfigOf(req))]
              && a.result.logs == Opening(req) + [ErrorLine(lib.construct.detail)]
    ensures Opening(req) <= a.result.logs
    ensures Send(MailOf(req)) in a.calls ==> Opening(req) + Delivery(req) <= a.result.logs
    ensures a.result.success ==>
              && a.result.message == SuccessMessage
              && a.result.logs == Opening(req) + Delivery(req) + [SentLine]
              && Quiet(a.result.logs)
    ensures !a.result.success ==>
              && EndsInSingleError(a.result.logs)
              && Last(a.result.logs) == ErrorLine(FirstFailure(lib).value)
              && a.result.message == SendFailureHead + FirstFailure(lib).value
  {
    var opening := Opening(req);
    OpeningShape(req);
    match lib.construct
    case Fail(detail) =>
      QuietThenError(opening, detail);
      Attempt(Failed(opening, detail, completedAt), CallsMade(req, lib))
    case Ok =>
      var prepared := opening + Delivery(req);
      DeliveryShape(req);
      QuietAppend(opening, Delivery(req));
      match lib.send
      case Fail(detail) =>
        QuietThenError(prepared, detail);
        Attempt(Failed(prepared, detail, completedAt), CallsMade(req, lib))
      case Ok =>
        match lib.close
        case Fail(detail) =>
          QuietThenError(prepared, detail);
          Attempt(Failed(prepared, detail, completedAt), CallsMade(req, lib))
        case Ok =>
          TemplateHeads(req, "");
          QuietAppend(prepared, [SentLine]);
          Attempt(TestResult(true, SuccessMessage, prepared + [SentLine], completedAt), CallsMade(req, lib))
  }

  /** The `serve` handler. */
  function Serve(http: HttpRequest, lib: Library, completedAt: string): (x: Exchange)
    ensures http.verb == "OPTIONS" ==> x == Exchange(Response(200, Cors, None), [])
    ensures http.verb != "OPTIONS" ==> x.response.headers == CorsJson && x.response.body.Some?
    ensures x.response.status == 400 <==> http.verb != "OPTIONS" && http.body.Malformed?
    ensures http.verb != "OPTIONS" && http.body.Malformed? ==>
              && x.calls == []
              && x.response.body.value.success == false
              && x.response.body.value.message == RequestErrorHead + http.body.error
              && x.response.body.value.logs == [ErrorLine(http.body.error)]
              && x.response.body.value.timestamp == completedAt
    ensures http.verb != "OPTIONS" && http.body.Parsed? ==>
              && x.response.status == 200
              && x.response.body == Some(RunSmtpTest(http.body.req, lib, completedAt).result)
              && x.calls == RunSmtpTest(http.body.req, lib, completedAt).calls
  {
    if http.verb == "OPTIONS" then
      Exchange(Response(200, Cors, None), [])
    else
      match http.body
      case Malformed(error) =>
        var result := TestResult(false, RequestErrorHead + error, [ErrorLine(error)], completedAt);
        Exchange(Response(400, CorsJson, Some(result)), [])
      case Parsed(req) =>
        var attempt := RunSmtpTest(req, lib, completedAt);
        Exchange(Response(200, CorsJson, Some(attempt.result)), attempt.calls)
  }

  /** A `send` that throws still leaves "Successfully connected" in the log, and `close` is never called. */
  lemma SendFailureAfterConnect(req: Request, lib: Library, completedAt: string)
    requires lib.construct == Ok && lib.send.Fail?
    ensures var a := RunSmtpTest(req, lib, completedAt);
            && !a.result.success
            && a.result.logs == Opening(req) + Delivery(req) + [ErrorLine(lib.send.detail)]
            && ConnectedLine in a.result.logs
            && a.calls == [Construct(ClientConfigOf(req)), Send(MailOf(req))]
  {
  }

  /** The entries a test run writes after the opening ones. */
  lemma SmtpTestTail(req: Request, lib: Library, completedAt: string) returns (rest: seq<string>)
    ensures RunSmtpTest(req, lib, completedAt).result.logs == Opening(req) + rest
    ensures FirstFailure(lib).None? ==> rest == Delivery(req) + [SentLine]
    ensures lib.construct.Fail? ==> rest == [ErrorLine(lib.construct.detail)]
    ensures lib.construct.Ok? && FirstFailure(lib).Some? ==> rest == Delivery(req) + [ErrorLine(FirstFailure(lib).value)]
  {
    var logs := RunSmtpTest(req, lib, completedAt).result.logs;
    rest := logs[|Opening(req)|..];
    assert logs == Opening(req) + rest;
  }

  /** "Email sent successfully" is logged exactly when construction, `send` and `close` all return. */
  lemma SentLoggedIffAllReturn(req: Request, lib: Library, completedAt: string)
    ensures var logs := RunSmtpTest(req, lib, completedAt).result.logs;
            SentLine in logs <==> lib == Library(Ok, Ok, Ok)
  {
    var logs := RunSmtpTest(req, lib, completedAt).result.logs;
    var rest := SmtpTestTail(req, lib, completedAt);
    if lib != Library(Ok, Ok, Ok) {
      var detail := FirstFailure(lib).value;
      TemplateHeads(req, detail);
      SentLineIsNew(req);
      var before := if lib.construct.Fail? then Opening(req) else Opening(req) + Delivery(req);
      assert logs == before + [ErrorLine(detail)];
      forall i | 0 <= i < |logs|
        ensures logs[i] != SentLine
      {
        if i < |before| {
          assert logs[i] == before[i] == (Opening(req) + Delivery(req))[i];
        }
      }
    }
  }

  /** The username entry is in the log if and only if auth is on. */
  lemma UsernameLoggedIffAuth(req: Request, lib: Library, completedAt: string)
    ensures var logs := RunSmtpTest(req, lib, completedAt).result.logs;
            req.auth <==> exists i :: 0 <= i < |logs| && IsUsernameLine(logs[i])
  {
    var rest := SmtpTestTail(req, lib, completedAt);
    var detail := if FirstFailure(lib).Some? then FirstFailure(lib).value else "";
    TemplateHeads(req, detail);
    DeliveryShape(req);
    forall i | 0 <= i < |rest|
      ensures !IsUsernameLine(rest[i])
    {
      if i < |rest| - 1 {
        assert rest[i] == Delivery(req)[i];
      }
    }
    UsernameOnlyInOpening(req, rest);
  }

  /** The password never reaches the log or the summary: for the same library outcomes, requests
      that differ only in password and message body get the same result. The password reaches
      only the client configuration, and only when auth is on. */
  lemma PasswordNotLogged(a: Request, b: Request, lib: Library, completedAt: string)
    requires SameLoggedFields(a, b)
    ensures RunSmtpTest(a, lib, completedAt).result == RunSmtpTest(b, lib, completedAt).result
    ensures !a.auth ==> ClientConfigOf(a) == ClientConfigOf(b)
  {
  }

  /** The simulated tester and the edge function agree: a simulated success is what the edge
      function reports when every library call returns, and a simulated failure has the log the
      edge function writes when the client cannot be constructed, with the same error detail. */
  lemma SimulationMatchesService(data: Request, completedAt: string)
    ensures var simulated := SmtpTester.HandleTest(data, completedAt);
            simulated.success ==> simulated == RunSmtpTest(data, Library(Ok, Ok, Ok), completedAt).result
    ensures var simulated := SmtpTester.HandleTest(data, completedAt);
            !simulated.success ==>
              var detail := Last(simulated.logs)[|ErrorHead|..];
              simulated.logs == RunSmtpTest(data, Library(Fail(detail), Ok, Ok), completedAt).result.logs
  {
    var simulated := SmtpTester.HandleTest(data, completedAt);
    var scenario := SmtpTester.Classify(data);
    if scenario == SmtpTester.Delivered {
      assert simulated.logs == Opening(data) + Delivery(data) + [SentLine];
    } else {
      var detail := match scenario
        case Refused => "Connection refused"
        case TimedOut => "Connection timeout"
        case _ => "Authentication required";
      assert simulated.logs == Opening(data) + [ErrorLine(detail)];
      assert Last(simulated.logs)[|ErrorHead|..] == detail;
      var service := RunSmtpTest(data, Library(Fail(detail), Ok, Ok), completedAt);
      assert service.result.logs == Opening(data) + [ErrorLine(detail)];
    }
  }
}
