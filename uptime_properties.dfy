/** What the verdict, the alert gate and the subject line promise, stated over all inputs. */
module UptimeProperties {
  import opened Options
  import opened Decimal
  import opened UptimeCheck

  /** A response: the status is its code, ok exactly in [200, 400), and never an error text. */
  lemma ResponseVerdict(target: string, code: int, latencyMs: int)
    ensures var s := Classify(target, Response(code), latencyMs);
      s.status == Some(code) && (s.ok <==> 200 <= code < 400) && s.error == None
  {
  }

  /** The quirk of the response branch: an unhealthy code is not ok, yet carries no error text. */
  lemma UnhealthyResponseHasNoError(target: string, code: int, latencyMs: int)
    requires !(200 <= code < 400)
    ensures var s := Classify(target, Response(code), latencyMs);
      !s.ok && s.status == Some(code) && s.error == None
  {
  }

  /** HTTPError: never ok, whatever its code; the status is its code; the error is labelled. */
  lemma HttpErrorVerdict(target: string, code: int, text: string, latencyMs: int)
    ensures var s := Classify(target, HttpError(code, text), latencyMs);
      !s.ok && s.status == Some(code) && s.error == Some("HTTPError: " + text)
  {
  }

  /** Any other exception: never ok, no status, the error is "<class name>: <message>". */
  lemma OtherErrorVerdict(target: string, typeName: string, text: string, latencyMs: int)
    ensures var s := Classify(target, OtherError(typeName, text), latencyMs);
      !s.ok && s.status == None && s.error == Some(typeName + ": " + text)
  {
  }

  /** Whenever an error text is present it is non-empty and the check is not ok. */
  lemma ErrorTextIsNonEmpty(target: string, outcome: Outcome, latencyMs: int)
    ensures var s := Classify(target, outcome, latencyMs);
      s.error.Some? ==> !s.ok && |s.error.value| >= 2
  {
  }

  /**
    The healthy range is the 2xx and 3xx status classes: the first digit of a
    status code (its value divided by 100) is 2 or 3.
   */
  lemma HealthyIsSuccessfulOrRedirection(code: int)
    ensures Healthy(code) <==> code / 100 == 2 || code / 100 == 3
  {
  }

  /**
    An HTTPError whose code lies in the healthy range still gives a failed
    check with a status inside [200, 400), so "not ok" does not imply "status
    absent or outside [200, 400)".
   */
  lemma HttpErrorWithHealthyCodeFails(target: string, text: string, latencyMs: int)
    ensures var s := Classify(target, HttpError(304, text), latencyMs);
      !s.ok && s.status.Some? && Healthy(s.status.value)
  {
  }

  /** A healthy check is never alerted on, whatever the topic. */
  lemma NoAlertWhenOk(summary: Summary, topic: string)
    requires summary.ok
    ensures AlertFor(summary, topic) == None
  {
  }

  /** No topic, no alert, even for a failed check. */
  lemma NoAlertWithoutTopic(summary: Summary)
    ensures AlertFor(summary, "") == None
  {
  }

  /** Rendering a status loses nothing: distinct statuses render differently. */
  lemma RenderStatusInjective(a: Option<int>, b: Option<int>)
    ensures RenderStatus(a) == RenderStatus(b) ==> a == b
  {
    if a.Some? && b.Some? {
      IntToDecimalInjective(a.value, b.value);
    }
  }

  /** The subject line determines the status it was built from. */
  lemma SubjectDeterminesStatus(a: Option<int>, b: Option<int>)
    ensures Subject(a) == Subject(b) ==> a == b
  {
    if Subject(a) == Subject(b) {
      var n := |SubjectPrefix|;
      assert Subject(a)[n..|Subject(a)| - 1] == RenderStatus(a);
      assert Subject(b)[n..|Subject(b)| - 1] == RenderStatus(b);
      RenderStatusInjective(a, b);
    }
  }

  /** The status can be read back from an alert's subject line. */
  function StatusOfSubject(subject: string): (r: Option<Option<int>>)
  {
    var n := |SubjectPrefix|;
    if |subject| <= n || subject[..n] != SubjectPrefix || subject[|subject| - 1] != ')' then None
    else
      var inner := subject[n..|subject| - 1];
      if inner == "None" then Some(None)
      else match ParseInt(inner)
        case None => None
        case Some(code) => Some(Some(code))
  }

  lemma SubjectRoundTrip(status: Option<int>)
    ensures StatusOfSubject(Subject(status)) == Some(status)
  {
    var s := Subject(status);
    assert s[|SubjectPrefix|..|s| - 1] == RenderStatus(status);
    match status
    case None =>
    case Some(code) =>
      IntToDecimalRoundTrip(code);
      assert IntToDecimal(code)[0] != 'N';
  }

  /** The gate of the handler: an alert iff not ok and a topic, at most one, carrying the record. */
  lemma AlertGate(target: string, topic: string, outcome: Outcome, latencyMs: int)
    ensures var s := Classify(target, outcome, latencyMs);
      var sent := Published(AlertFor(s, topic));
      |sent| <= 1
      && (|sent| == 1 <==> !(outcome.Response? && Healthy(outcome.code)) && topic != "")
      && (|sent| == 1 ==> sent[0].body == s && StatusOfSubject(sent[0].subject) == Some(s.status))
  {
    var s := Classify(target, outcome, latencyMs);
    SubjectRoundTrip(s.status);
  }

  /** A 200 answered in 50 ms: ok, status 200, no error, nothing published. */
  lemma HealthyScenario(target: string, topic: string)
    ensures var s := Classify(target, Response(200), 50);
      s.ok && s.status == Some(200) && s.error == None && AlertFor(s, topic) == None
  {
  }

  /** A 503 raised as HTTPError: not ok, status 503, an error, one alert with subject "(503)". */
  lemma ServiceUnavailableScenario(target: string, text: string, latencyMs: int)
    ensures var s := Classify(target, HttpError(503, text), latencyMs);
      && !s.ok && s.status == Some(503) && s.error.Some?
      && AlertFor(s, "alerts") == Some(Alert("alerts", "[ALERT] Uptime check failed (503)", s))
  {
    assert NatToDecimal(503) == "503" by {
      assert NatToDecimal(5) == "5";
      assert NatToDecimal(50) == "50";
    }
    assert Subject(Some(503)) == "[ALERT] Uptime check failed (503)";
  }

  /**
    An exception of class `TimeoutError` (for example a timeout while reading the
    response): not ok, no status, the error names the class, one alert with
    subject "(None)".
   */
  lemma TimeoutScenario(target: string, text: string, latencyMs: int)
    ensures var s := Classify(target, OtherError("TimeoutError", text), latencyMs);
      && !s.ok && s.status == None && s.error == Some("TimeoutError: " + text)
      && AlertFor(s, "alerts") == Some(Alert("alerts", "[ALERT] Uptime check failed (None)", s))
  {
    assert ExceptionLabel("TimeoutError", text) == "TimeoutError: " + text;
    assert Subject(None) == "[ALERT] Uptime check failed (None)";
  }
}
