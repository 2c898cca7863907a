# Request-rate server and load generator, modelled in Dafny

This project models the two pieces of sequential logic in a small load-balancing test bed:

- **The request-rate counter of the Flask server** (`python-server/server.py`). The server keeps two
  globals: `request_counter` (requests pending since the last sample) and `current_rps` (the last
  published rate). The root endpoint `/` counts a request and replies with the published rate. A
  background loop publishes the pending count once a second and resets it. `/health` and the
  server-sent-event stream `/rps` only read the published rate. Each block the source guards with
  `counter_lock` is one atomic method of the class `Server.RateCounter`. The same transitions are
  also given as functions on the value `Server.CounterState`, so that sequences of events can be
  reasoned about (`Server.Run`, `Server.Published`). The stream message is modelled to the
  character. It is the `json.dumps` text of `{"rps": …, "timestamp": …}` with the default
  separators, framed as one `data:` line and a blank line, as the `text/event-stream` format of
  section 9.2 of the WHATWG HTML Living Standard requires. The listening-port rule
  (`APP_PORT` over `--port`, which defaults to 5000) is `Server.ListeningPort`.
- **The stress-test client** (`stress-test.py`). `send_request` turns what the HTTP call did into
  a result record (`StressTest.SendRequest`). `main` numbers the requests 1..N and appends one
  record per completed request, in completion order, printing one line each
  (`StressTest.RunLoad`). It then tallies successes and failures and prints either the statistics
  or the "all failed" line (`StressTest.Summarize`).

Modules: `Wrappers` (an `Option` type for Python's `None`), `Decimal` (the decimal text of a
natural number and its parse), `Server`, `StressTest`.

Inputs the source reads from its environment become parameters:
- the timestamp string of each stream message (it must have the `YYYY-MM-DD HH:MM:SS` shape that
  `strftime` produces);
- the already-converted `APP_PORT` value and `--port` flag, each as an `Option<int>`;
- what each HTTP call did, as `outcome(k)` for request number `k`: either an answer (status code,
  elapsed seconds as a `real`, body text) or a raised exception with its message;
- the order in which the worker pool completes the requests, as a sequence of request numbers
  that is a reordering of 1..N;
- for the sampler loop, the number of root requests served during each one-second sleep.

Both counter fields are `nat`, so they start at 0 (constructor) and can never become negative.

Facts about the code that the model keeps:
- The sampler loop has no exception handler (python-server/server.py:21-29), and a tick cannot
  fail in the model.
- The sampler loop has no way to stop: it runs for as long as the process does. The stream
  generator's loop has no exit of its own either. It ends only when the server closes the
  generator after its client disconnects, which raises `GeneratorExit` at the `yield`.
- N requests followed by one tick publish exactly N only from a state with nothing pending
  (`Server.IntervalPublishesItsRequests`). From any other state the tick also publishes what was
  already pending (`Server.RequestsThenTicks`).
- `--number` is any integer. A zero or negative value submits nothing (`range` is empty), and the
  summary is "All n requests failed!" with n as given (`StressTest.NoRequestsAllFailed`).

## Model

| member | source | states |
|---|---|---|
| `Server.RateCounter.constructor` | python-server/server.py:13-14 | Both the pending count and the published rate start at 0. |
| `Server.RateCounter.Index` | python-server/server.py:31-45 | The pending count grows by exactly 1 and the published rate is unchanged. The reply has status "ok", message "Request received" and the published rate from before the call, not the pending count. |
| `Server.RateCounter.SampleTick` | python-server/server.py:24-26 | One tick publishes the pre-tick pending count as the rate and resets the pending count to 0. |
| `Server.RateCounter.RunSampler` | python-server/server.py:17-29 | Over consecutive passes of the sampler loop, each pass publishes exactly the requests served during its own sleep. The first pass also publishes what was already pending. After at least one pass nothing is pending; with zero passes the state is unchanged. |
| `Server.RateCounter.Health` | python-server/server.py:47-50 | The health reply has status "healthy" and carries the published rate. Reading it changes no field. |
| `Server.RateCounter.NextStreamMessage` | python-server/server.py:55-63 | The next stream message is exactly the stream message of the published rate and the given timestamp, so it carries the `data:` framing. A client that parses it gets back that rate and that timestamp. Building it changes no field. |
| `Server.RateCounter.Handle` | python-server/server.py:24-63 | Serving any event through the object's operations moves the state exactly as the value model's `Step`: a request increments the pending count, a tick publishes, and a health check or a stream push leaves the state unchanged. |
| `Server.AfterRequest` | python-server/server.py:36-37 | A counted request adds exactly 1 to the pending count and leaves the published rate as it was. |
| `Server.AfterTick` | python-server/server.py:24-26 | A tick sets the published rate to the pending count and the pending count to 0. |
| `Server.Step` | python-server/server.py:24-63 | Only a tick writes the published rate. Only a request adds to the pending count, by exactly 1. A health check or a stream push leaves the state unchanged. |
| `Server.RequestsConserved` | python-server/server.py:24-37 | Over any sequence of events, the rates published by the ticks plus what is still pending equal the earlier pending count plus the number of requests. No request is lost and none is counted twice. |
| `Server.NoTickKeepsRate` | python-server/server.py:36-50 | Without a tick, the published rate never changes, every request stays pending, and nothing is published. Only the sampler writes the rate. |
| `Server.RequestsThenTicks` | python-server/server.py:24-37 | From any state, N requests and a tick publish the earlier pending count plus N and leave 0 pending. A second tick straight after publishes 0. |
| `Server.IntervalPublishesItsRequests` | python-server/server.py:24-37 | Starting right after a tick, N requests followed by a tick publish exactly N. |
| `Server.IndexBody` | python-server/server.py:41-45 | The root reply has status "ok", message "Request received" and the rate it is given. |
| `Server.Payload` | python-server/server.py:59-62 | The JSON text of a stream event contains no line break, so it fits on the single `data:` line. |
| `Server.ParseStreamMessage` | python-server/server.py:59-63 | Parsing a stream message (the `data: ` field, then the JSON object) gives back exactly the rate and the timestamp it was built from. The parser accepts only the decimal text JSON writes for a number, with no leading zero. |
| `Server.ParsedMessageIsStreamMessage` | python-server/server.py:59-63 | Conversely, every text the parser accepts is the stream message of the rate and the timestamp it reads. The message text and the event it carries determine each other. |
| `Server.StreamMessage` | python-server/server.py:63 | Each message starts with `data: `, ends with the blank line `\n\n` that dispatches one event, and has no line break between them. |
| `Server.ListeningPort` | python-server/server.py:192-197 | The port is the `APP_PORT` value when set, whatever the flag says, else the `--port` value, else 5000. |
| `Server.PortFlag` | python-server/server.py:192 | The `--port` value is the flag's value when given, else its default 5000. |
| `Decimal.Digits` | python-server/server.py:60 | The text of the rate is a non-empty string of decimal digits with no leading zero. |
| `Decimal.ValueOfDigits` | python-server/server.py:60 | Reading back the decimal text of a rate gives the rate. |
| `Decimal.DigitsInjective` | python-server/server.py:60 | Different rates have different texts. |
| `StressTest.Snippet` | stress-test.py:17 | The stored content is the prefix of the body of length exactly min(100, body length): the first 100 characters, or the whole body when it is shorter. |
| `StressTest.SendRequest` | stress-test.py:6-26 | The record always carries the request number passed in. An answered call gives success, its status code, elapsed time and content, and no error. A raised call gives failure, no status, no time, no content and the exception's message. Every record is well formed. |
| `StressTest.ResultLine` | stress-test.py:55-60 | The printed line is the status/time line exactly when the record succeeded, else the "FAILED" line with the error. Either way it names the record's request number. |
| `StressTest.Submitted` | stress-test.py:48-49 | The submitted numbers are 1, 2, …, in order, one per element of `range(n)`: n of them, or none when n ≤ 0. |
| `StressTest.SubmittedOnce` | stress-test.py:48-49 | The submitted request numbers contain each of 1..N exactly once and nothing else; nothing at all when N ≤ 0. |
| `StressTest.ResultsFor` | stress-test.py:51-53 | The records collected for a sequence of request numbers are one per number. |
| `StressTest.ResultsForRecords` | stress-test.py:51-53 | Each collected record carries the number it was sent with, is well formed, and succeeded exactly when its call was answered. |
| `StressTest.CompletionInRange` | stress-test.py:48-53 | Whatever the completion order, it has one entry per submitted request (N, or 0 when N ≤ 0), each a request number between 1 and N. |
| `StressTest.RunLoad` | stress-test.py:43-78 | For any integer N, after the loop there is one record per completed request (N, or none when N ≤ 0), the j-th being the record of the j-th completed request. Every number 1..N appears exactly once. Each printed line matches its record. The summary is that of the collected records, and equals the summary the requests would give in submission order. |
| `StressTest.CountSuccessful` | stress-test.py:66 | The success count never exceeds the number of records. |
| `StressTest.CountFailed` | stress-test.py:66-67 | The records whose flag is false, counted on their own, are exactly `len(results) - successful`. |
| `StressTest.NoSuccessNoTime` | stress-test.py:70 | `SumTimes`, the sum of the successful records' times, is 0 when no record succeeded: failed records add no time. |
| `StressTest.Summarize` | stress-test.py:66-78 | The summary reports N as the total, as given, even when it is zero or negative. It is "all failed" exactly when no record succeeded. Otherwise it has successes > 0 (no division by zero), failures = records − successes, and a mean time that multiplied by the successes gives the sum of the successful times. |
| `StressTest.NoRequestsAllFailed` | stress-test.py:69-78 | With N ≤ 0 nothing is submitted and only the "all N requests failed" summary is produced. |
| `StressTest.NoneSucceed` | stress-test.py:66-67 | When no record succeeded, the success count is 0 and every record is counted as failed. |
| `StressTest.UnreachableAllFailed` | stress-test.py:69-78 | When every call raises, in any completion order, the summary is "all N requests failed". |
| `StressTest.AllAnsweredAllSucceed` | stress-test.py:66-67 | When every record succeeded, the success count is their number and the failure count is 0. |
| `StressTest.AllAnsweredStatistics` | stress-test.py:66-73 | When every one of N > 0 calls is answered, the summary has N successes and 0 failures. |
| `StressTest.SumTimesBounds` | stress-test.py:70 | If every successful time lies in [lo, hi], the total time lies between lo and hi times the success count. |
| `StressTest.AverageBounds` | stress-test.py:70 | If every successful time lies in [lo, hi], the mean time lies in [lo, hi]. |
| `StressTest.TallyPermutation` | stress-test.py:66-70 | Reordering the records leaves the success count, the failure count and the total time unchanged. |
| `StressTest.ResultsForPermutation` | stress-test.py:51-53 | The records of the same requests collected in two orders are the same records, reordered. |
| `StressTest.SummaryIgnoresOrder` | stress-test.py:51-78 | The summary does not depend on the order in which requests complete. |

## Left out

- Flask routing, `Response`, `stream_with_context` and the `/rps-display` HTML and JavaScript page (python-server/server.py:52-53, 66-187): web framework plumbing and presentation.
- `threading.Lock` and the daemon thread: each locked block is one atomic method, and thread interleavings are not modelled.
- `Server.RateCounter.Index`: the source reads `current_rps` for its reply after releasing the lock, so a tick running in between could make the reply carry the newer rate. The model reads it atomically with the increment.
- The sampler's `while True` loop runs for the life of the process. `RunSampler` runs a given number of passes.
- The stream generator's `while True` loop has no exit of its own. It ends only when the server closes the generator after its client disconnects. The model does not capture this ending, since `NextStreamMessage` builds one message.
- `time.sleep`, `datetime.now().strftime` and every `print` (the per-tick log line, the log line in the root endpoint, the CLI banner and the summary text formatting): clocks and output. The timestamp is an input, and the printed lines and the summary are returned as values.
- `json.dumps` in general: only the one dictionary shape the stream sends is written out, for a timestamp that needs no escaping.
- `argparse` parsing and the `int()` conversion of `APP_PORT`, which raises on a non-numeric value: the parsed integers are inputs.
- `requests.get`, its 5-second timeout and the exception types: a network client. Its effect is the `Outcome` input, and `str(e)` is the message carried by `Raised`.
- `ThreadPoolExecutor` and `as_completed`: concurrency. The completion order is an input reordering of 1..N.
- Wall-clock timing, the total run time and the throughput line `args.number / total_time` (stress-test.py:62, 75-76). That division has no guard against a zero duration.
- `StressTest.SumTimes`: a successful record without a time would make the source's `sum` raise. The model adds 0.0 for it instead. Every record `SendRequest` builds has a time when it succeeded, so this case never occurs.
- Floating-point rounding of elapsed times: times are exact `real` numbers.
