/**
  The browser-side `handleTest` of the SMTP tester page. It performs no I/O:
  it picks one of four canned outcomes from substrings of the host name and
  builds the log and result for it. The two-second delay and the clock are
  left out; the completion time is a parameter.
 */
module SmtpTester {
  import opened Text
  import opened SmtpTestData

  const RefusedMessage := "Failed to connect to SMTP server. Connection refused."
  const TimeoutMessage := "SMTP server connection timed out. Please check your server address."
  const AuthMessage := "Authentication required. Please provide username and password."

  /** The four simulated outcomes, in the order `handleTest` tests for them. */
  datatype Scenario = Refused | TimedOut | AuthMissing | Delivered

  function Classify(data: Request): Scenario {
    if Includes(data.host, "error") then Refused
    else if Includes(data.host, "timeout") then TimedOut
    else if Includes(data.host, "auth") && (data.username == "" || data.password == "") then AuthMissing
    else Delivered
  }

  /** The log entries `handleTest` appends after the opening ones. */
  function Trailer(scenario: Scenario, data: Request): seq<string> {
    match scenario
    case Refused => [ErrorLine("Connection refused")]
    case TimedOut => [ErrorLine("Connection timeout")]
    case AuthMissing => [ErrorLine("Authentication required")]
    case Delivered => Delivery(data) + [SentLine]
  }

  function Summary(scenario: Scenario): string {
    match scenario
    case Refused => RefusedMessage
    case TimedOut => TimeoutMessage
    case AuthMissing => AuthMessage
    case Delivered => SuccessMessage
  }

  /** The result `handleTest` stores for `data`, completed at time `completedAt`. */
  function HandleTest(data: Request, completedAt: string): (r: TestResult)
    ensures r.timestamp == completedAt
    ensures |r.logs| == 2 + (if data.auth then 1 else 0) + (if r.success then 4 else 1)
    ensures r.logs[0] == StartLine(data.host, data.port)
    ensures r.logs[1] == ConnectLine(data.encryption)
    ensures data.auth ==> r.logs[2] == UsernameLine(data.username)
    ensures r.success ==> r.message == SuccessMessage && Last(r.logs) == SentLine && Quiet(r.logs)
    ensures !r.success ==> EndsInSingleError(r.logs) && r.message != SuccessMessage
  {
    var scenario := Classify(data);
    var logs := Opening(data) + Trailer(scenario, data);
    OpeningShape(data);
    if scenario == Delivered then
      DeliveryShape(data);
      TemplateHeads(data, "");
      QuietAppend(Opening(data), Delivery(data) + [SentLine]);
      TestResult(true, Summary(scenario), logs, completedAt)
    else
      QuietThenError(Opening(data), Last(Trailer(scenario, data))[|ErrorHead|..]);
      TestResult(false, Summary(scenario), logs, completedAt)
  }

  /** A host containing "error" always gives the refused failure, whatever else it contains. */
  lemma ErrorTakesPriority(data: Request, completedAt: string)
    requires Occurs("error", data.host)
    ensures HandleTest(data, completedAt)
         == TestResult(false, RefusedMessage, Opening(data) + [ErrorLine("Connection refused")], completedAt)
  {
  }

  /** The timeout failure is reported exactly when the host contains "timeout" but not "error". */
  lemma TimeoutOnlyWithoutError(data: Request, completedAt: string)
    ensures HandleTest(data, completedAt).message == TimeoutMessage
        <==> !Occurs("error", data.host) && Occurs("timeout", data.host)
    ensures !Occurs("error", data.host) && Occurs("timeout", data.host) ==>
      HandleTest(data, completedAt)
        == TestResult(false, TimeoutMessage, Opening(data) + [ErrorLine("Connection timeout")], completedAt)
  {
  }

  /** The missing-credentials failure is reported exactly when the host contains "auth" (and
      neither earlier substring) and the username or password is empty; the auth switch plays no part. */
  lemma AuthRequiredExactly(data: Request, completedAt: string)
    ensures HandleTest(data, completedAt).message == AuthMessage
        <==> && !Occurs("error", data.host)
             && !Occurs("timeout", data.host)
             && Occurs("auth", data.host)
             && (data.username == "" || data.password == "")
    ensures && !Occurs("error", data.host)
            && !Occurs("timeout", data.host)
            && Occurs("auth", data.host)
            && (data.username == "" || data.password == "") ==>
      HandleTest(data, completedAt)
        == TestResult(false, AuthMessage, Opening(data) + [ErrorLine("Authentication required")], completedAt)
    ensures HandleTest(data.(auth := !data.auth), completedAt).message == HandleTest(data, completedAt).message
  {
  }

  /** The simulated send succeeds exactly when none of the three failure tests fires, and then
      writes the four delivery entries after the opening ones. */
  lemma DeliveredExactly(data: Request, completedAt: string)
    ensures HandleTest(data, completedAt).success
        <==> && !Occurs("error", data.host)
             && !Occurs("timeout", data.host)
             && !(Occurs("auth", data.host) && (data.username == "" || data.password == ""))
    ensures HandleTest(data, completedAt).success ==>
      HandleTest(data, completedAt).logs
        == Opening(data) + [ConnectedLine, PreparingLine(data.from, data.to), SubjectLine(data.subject), SentLine]
  {
  }

  /** The username entry is in the log if and only if the auth switch is on. */
  lemma UsernameLoggedIffAuth(data: Request, completedAt: string)
    ensures var logs := HandleTest(data, completedAt).logs;
            data.auth <==> exists i :: 0 <= i < |logs| && IsUsernameLine(logs[i])
  {
    var scenario := Classify(data);
    var rest := Trailer(scenario, data);
    TemplateHeads(data, Last(rest)[|ErrorHead|..]);
    if scenario == Delivered {
      DeliveryShape(data);
      assert rest == Delivery(data) + [SentLine];
      forall i | 0 <= i < |rest|
        ensures !IsUsernameLine(rest[i])
      {
        if i < 3 {
          assert rest[i] == Delivery(data)[i];
        }
      }
    }
    UsernameOnlyInOpening(data, rest);
  }

  /** The password never reaches the log or the summary: two requests that differ only in
      password and message body, with passwords that are both empty or both non-empty,
      give the same result. Only the emptiness of the password is observable. */
  lemma PasswordNotLogged(a: Request, b: Request, completedAt: string)
    requires SameLoggedFields(a, b)
    requires a.password == "" <==> b.password == ""
    ensures HandleTest(a, completedAt) == HandleTest(b, completedAt)
  {
  }

  /** Whether the password is empty does show: on the host "auth" it decides between failure and success. */
  lemma PasswordEmptinessObservable()
    ensures var a := Request("auth", "25", "me", "", Unencrypted, "f", "t", "s", "m", true);
            var b := a.(password := "secret");
            !HandleTest(a, "").success && HandleTest(b, "").success
  {
  }

  /** The page's status, as shown by the result panel and the form's busy flag. */
  datatype Status = Idle | Loading | Succeeded | Failed

  datatype Screen = Screen(status: Status, result: Option<TestResult>)

  /** The status literal each branch of `handleTest` sets once its result is stored. */
  function FinalStatus(scenario: Scenario): Status {
    if scenario == Delivered then Succeeded else Failed
  }

  /** The component state after each of the three state updates one run of `handleTest`
      makes: the status goes to loading, then the new result is stored, then each branch sets
      its own final status. Whether the middle state is ever rendered is up to React's
      batching of updates, which is not modelled. */
  function TestCycle(before: Screen, data: Request, completedAt: string): (screens: seq<Screen>)
    ensures |screens| == 3
    ensures screens[0] == before.(status := Loading)
    ensures screens[1].status == Loading
    ensures screens[1].result == screens[2].result == Some(HandleTest(data, completedAt))
    ensures screens[2].status != Loading && screens[2].status != Idle
    ensures screens[2].status == Succeeded <==> screens[2].result.value.success
  {
    var loading := before.(status := Loading);
    var result := HandleTest(data, completedAt);
    var stored := loading.(result := Some(result));
    [loading, stored, stored.(status := FinalStatus(Classify(data)))]
  }
}
