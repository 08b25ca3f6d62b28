# Uptime check: a Dafny model

This project models the decision logic of the uptime-check Lambda function
(`lambda_handler` in `lambda/uptime_check.py`). Each time the function runs it
makes one HTTP GET to the target URL. It turns the outcome into a summary record
`{target, ok, status, latency_ms, error}`, prints that record, and returns it.
When the check is not ok and an SNS topic is configured, it also publishes one
alert. The alert subject is `[ALERT] Uptime check failed (<status>)` and the
alert body is the record.

The model has four modules:

- `Options`: Python's `None`-or-value, used for `status` and `error`.
- `Decimal`: `str()` of a Python `int`, which the subject line embeds. `ParseInt`
  reads that rendering back, so the module can prove that no information is lost.
- `UptimeCheck`: the three parts of the handler, each as a function of its inputs.
  - `Classify` is the verdict.
  - `AlertFor` is the alert gate.
  - `Subject` is the subject line.
  - `LambdaHandler` is the handler itself, written imperatively the way the
    source is. Its locals start as "no status, not ok, no error", one branch
    overwrites them, the record is logged, and at most one alert is published.
    It records its side effects on an `Effects` object, and it is proved equal
    to the functions above.
- `UptimeProperties`: all-inputs lemmas and the three concrete scenarios
  (a 200, a 503 raised as `HTTPError`, and a `TimeoutError` exception).

The attempt's outcome is an input datatype with three cases:

- `Response(code)`: a normal response.
- `HttpError(code, text)`: urllib raised `HTTPError`.
- `OtherError(typeName, text)`: any other exception.

The model does not assume which codes urllib delivers as a response and which
it raises as `HTTPError`.

Behaviour worth knowing:

- A normal response with a code outside [200, 400) fails with `error = None`.
  See `UnhealthyResponseHasNoError`.
- An `HTTPError` fails whatever its code, so a failed check can carry a status
  such as 304. See `HttpErrorWithHealthyCodeFails`.
- A missing status is rendered as Python's `None` in the subject, so the
  subject reads `(None)`. See `TimeoutScenario`.

## Model

| member | source | states |
|---|---|---|
| `UptimeCheck.Classify` | lambda/uptime_check.py:14-47 | the record keeps the target and latency; ok holds exactly for a normal response with a code in [200, 400); ok implies no error and a status in [200, 400); the status is absent exactly for a non-HTTPError exception; the error is absent exactly for a normal response |
| `UptimeCheck.LambdaHandler` | lambda/uptime_check.py:14-57 | the returned record is the verdict of `Classify`; that same record is logged exactly once; the publishes grow by exactly the alert `AlertFor` decides (none or one), whose body is that record |
| `UptimeCheck.Effects.Log` | lambda/uptime_check.py:48 | printing appends the record to the log and publishes nothing |
| `UptimeCheck.Effects.Publish` | lambda/uptime_check.py:51-55 | publishing appends one alert and logs nothing |
| `UptimeCheck.Published` | lambda/uptime_check.py:50-55 | the alerts sent are at most one, and one exactly when the gate yields an alert |
| `UptimeCheck.AlertFor` | lambda/uptime_check.py:50-55 | an alert exactly when the check is not ok and the topic is non-empty; it goes to that topic, its body is the record, and its subject is built from the record's status |
| `UptimeCheck.RenderStatus` | lambda/uptime_check.py:53 | `str(status)` is never empty (the decimal code, or `None`) |
| `UptimeCheck.Subject` | lambda/uptime_check.py:53 | the subject starts with the fixed `[ALERT] Uptime check failed (` marker and ends with `)` |
| `Decimal.NatToDecimal` | lambda/uptime_check.py:53 | the rendering of a non-negative code is a non-empty digit string with no leading zero |
| `Decimal.IntToDecimal` | lambda/uptime_check.py:53 | `str()` of an int starts with a minus sign exactly for negative values, followed by digits with no leading zero |
| `Decimal.DigitsValueOfNatToDecimal` | lambda/uptime_check.py:53 | the digits written for a non-negative code have exactly that code as their value |
| `Decimal.IntToDecimalRoundTrip` | lambda/uptime_check.py:53 | parsing the rendered code gives back the code |
| `Decimal.IntToDecimalInjective` | lambda/uptime_check.py:53 | distinct codes render as distinct strings |
| `UptimeProperties.ResponseVerdict` | lambda/uptime_check.py:26-28 | for a normal response the status is its code, ok holds exactly when 200 <= code < 400, and there is no error |
| `UptimeProperties.UnhealthyResponseHasNoError` | lambda/uptime_check.py:16-28 | a normal response with a code outside [200, 400) is not ok, yet its error stays `None` |
| `UptimeProperties.HttpErrorVerdict` | lambda/uptime_check.py:30-33 | an HTTPError is never ok whatever its code; the status is its code; the error is `HTTPError: ` followed by its text |
| `UptimeProperties.OtherErrorVerdict` | lambda/uptime_check.py:35-37 | any other exception is not ok and leaves the status `None`; the error is the class name, `: `, then the message |
| `UptimeProperties.ErrorTextIsNonEmpty` | lambda/uptime_check.py:30-37 | an error text, when present, is non-empty and comes with a failed check |
| `UptimeProperties.HealthyIsSuccessfulOrRedirection` | lambda/uptime_check.py:28 | the healthy range [200, 400) is exactly the 2xx and 3xx status classes of section 15 of RFC 9110 |
| `UptimeProperties.HttpErrorWithHealthyCodeFails` | lambda/uptime_check.py:30-32 | an HTTPError with code 304 gives a failed check whose status lies inside [200, 400) |
| `UptimeProperties.NoAlertWhenOk` | lambda/uptime_check.py:50 | a healthy check is never alerted on, whatever the topic |
| `UptimeProperties.NoAlertWithoutTopic` | lambda/uptime_check.py:50 | an empty topic disables alerting even for a failed check |
| `UptimeProperties.RenderStatusInjective` | lambda/uptime_check.py:53 | distinct statuses, `None` included, render as distinct strings |
| `UptimeProperties.SubjectDeterminesStatus` | lambda/uptime_check.py:53 | two equal subjects come from the same status |
| `UptimeProperties.SubjectRoundTrip` | lambda/uptime_check.py:53 | the status can be read back from the subject line |
| `UptimeProperties.AlertGate` | lambda/uptime_check.py:41-55 | per invocation at most one alert is sent, and one exactly when the outcome is not a healthy response and the topic is non-empty; its body is the record and its subject gives back the record's status |
| `UptimeProperties.HealthyScenario` | lambda/uptime_check.py:26-28 | a 200 in 50 ms is ok with status 200 and no error, and raises no alert |
| `UptimeProperties.ServiceUnavailableScenario` | lambda/uptime_check.py:30-55 | a 503 raised as HTTPError is not ok with status 503 and an error, and gives one alert with subject `[ALERT] Uptime check failed (503)` |
| `UptimeProperties.TimeoutScenario` | lambda/uptime_check.py:35-55 | an exception of class `TimeoutError` (for example a read timeout) is not ok, with no status and the error `TimeoutError: <message>`, and gives one alert with subject `[ALERT] Uptime check failed (None)` |

## Left out

- The HTTP request (`urllib.request.Request`, `urlopen`, the `User-Agent` header, the timeout) is network I/O. Its result is the `Outcome` input. The model does not assume urllib's real behaviour, such as raising on 4xx/5xx or following redirects.
- The `boto3` SNS client is an external AWS call. `Effects.Publish` only records the alert that `sns.publish` would be given. A publish that fails and so fails the whole invocation is not modelled.
- Reading `TARGET_URL`, `TOPIC_ARN` and `TIMEOUT_SECONDS` from the environment, their defaults, and `int()` parsing of the timeout are process configuration. The target and the topic are parameters.
- The latency measurement (`time.time()`, `int()` of a float difference) depends on the wall clock. `latencyMs` is an opaque integer input; nothing makes it non-negative.
- `json.dumps` and `print` are library formatting and output. The log line and the alert body are the summary record itself.
- `str(e)` and `type(e).__name__` are library rendering. The model takes the exception's text and class name as inputs.
- An exception raised after the response code was read (for example, while the `with` block closes the response) would leave `status` set on a failed check. `OtherError` carries no status, so the model assumes any other exception happens before a code is read.
- The `event` and `context` arguments are unused by the handler and are not modelled.
