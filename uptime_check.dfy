/**
  One invocation of the uptime check: the outcome of a single HTTP GET becomes
  a summary record, the record goes to the log, and when the check failed and
  an alert topic is configured one alert is published to that topic.

  The HTTP request, the clock, the log sink and the messaging client are not
  modelled: the outcome and the latency are inputs, and the log and the
  publishes are recorded on an `Effects` object.
 */
module UptimeCheck {
  import opened Options
  import opened Decimal

  /** What the single HTTP attempt ended with. */
  datatype Outcome =
    | Response(code: int)                        // a response came back; `code` is its status
    | HttpError(code: int, text: string)         // urllib raised HTTPError; `text` is str(e)
    | OtherError(typeName: string, text: string) // any other exception: its class name and str(e)

  /** The summary record that is logged, sent as the alert body, and returned. */
  datatype Summary = Summary(
    target: string,
    ok: bool,
    status: Option<int>,
    latencyMs: int,
    error: Option<string>)

  /** An alert as it would be handed to the messaging client. */
  datatype Alert = Alert(topic: string, subject: string, body: Summary)

  const HttpErrorLabel := "HTTPError: "
  const SubjectPrefix := "[ALERT] Uptime check failed ("

  /** The healthy range: the 2xx (successful) and 3xx (redirection) status classes. */
  predicate Healthy(code: int) {
    200 <= code < 400
  }

  /** The error text of an exception other than HTTPError: its class name, ": ", its message. */
  function ExceptionLabel(typeName: string, text: string): (s: string) {
    typeName + ": " + text
  }

  /**
    The verdict for one attempt. Only a response with a healthy code is ok; only
    an exception leaves an error text; only an exception other than HTTPError
    leaves the status absent.
   */
  function Classify(target: string, outcome: Outcome, latencyMs: int): (s: Summary)
    ensures s.target == target && s.latencyMs == latencyMs
    ensures s.ok <==> outcome.Response? && Healthy(outcome.code)
    ensures s.ok ==> s.error == None && s.status.Some? && Healthy(s.status.value)
    ensures s.status.None? <==> outcome.OtherError?
    ensures s.error.None? <==> outcome.Response?
  {
    match outcome
    case Response(code) =>
      Summary(target, Healthy(code), Some(code), latencyMs, None)
    case HttpError(code, text) =>
      Summary(target, false, Some(code), latencyMs, Some(HttpErrorLabel + text))
    case OtherError(typeName, text) =>
      Summary(target, false, None, latencyMs, Some(ExceptionLabel(typeName, text)))
  }

  /** `str(status)`: the decimal code, or the literal `None` when there is no status. */
  function RenderStatus(status: Option<int>): (s: string)
    ensures 1 <= |s|
  {
    match status
    case None => "None"
    case Some(code) => IntToDecimal(code)
  }

  /** The alert subject: the fixed marker, then the rendered status in parentheses. */
  function Subject(status: Option<int>): (s: string)
    ensures |SubjectPrefix| < |s| && s[..|SubjectPrefix|] == SubjectPrefix && s[|s| - 1] == ')'
  {
    SubjectPrefix + RenderStatus(status) + ")"
  }

  /** The alert gate: an alert exactly when the check failed and a topic is configured. */
  function AlertFor(summary: Summary, topic: string): (a: Option<Alert>)
    ensures a.Some? <==> !summary.ok && topic != ""
    ensures a.Some? ==> a.value.topic == topic && a.value.body == summary
    ensures a.Some? ==> a.value.subject == Subject(summary.status)
  {
    if !summary.ok && topic != "" then Some(Alert(topic, Subject(summary.status), summary)) else None
  }

  /** What an invocation leaves behind outside itself. */
  class Effects {
    var logged: seq<Summary>
    var published: seq<Alert>

    constructor ()
      ensures logged == [] && published == []
    {
      logged, published := [], [];
    }

    /** One line written to the log sink. */
    method Log(s: Summary)
      modifies this
      ensures logged == old(logged) + [s] && published == old(published)
    {
      logged := logged + [s];
    }

    /** One message handed to the messaging client. */
    method Publish(a: Alert)
      modifies this
      ensures published == old(published) + [a] && logged == old(logged)
    {
      published := published + [a];
    }
  }

  /** The alerts an invocation publishes, as a list of zero or one. */
  function Published(alert: Option<Alert>): (r: seq<Alert>)
    ensures |r| <= 1
    ensures alert.Some? <==> r != []
    ensures alert.Some? ==> r[0] == alert.value
  {
    match alert
    case None => []
    case Some(a) => [a]
  }

  /**
    The handler: the locals start as "no status, not ok, no error", exactly one
    branch overwrites them, the record is logged once, and at most one alert is
    published, carrying that same record as its body.
   */
  method LambdaHandler(target: string, topic: string, outcome: Outcome, latencyMs: int, fx: Effects)
    returns (summary: Summary)
    modifies fx
    ensures summary == Classify(target, outcome, latencyMs)
    ensures fx.logged == old(fx.logged) + [summary]
    ensures fx.published == old(fx.published) + Published(AlertFor(summary, topic))
  {
    var status: Option<int> := None;
    var ok := false;
    var error: Option<string> := None;
    match outcome {
      case Response(code) =>
        status := Some(code);
        ok := Healthy(code);
      case HttpError(code, text) =>
        status := Some(code);
        ok := false;
        error := Some(HttpErrorLabel + text);
      case OtherError(typeName, text) =>
        ok := false;
        error := Some(ExceptionLabel(typeName, text));
    }
    summary := Summary(target, ok, status, latencyMs, error);
    fx.Log(summary);
    if !ok && topic != "" {
      fx.Publish(Alert(topic, Subject(status), summary));
    }
  }
}
