# TruthShield core, modelled in Dafny

TruthShield is a small web application. A browser page uploads an image to an
Express backend. The backend hands the image to a Hugging Face image
classifier and turns the classifier's answer into a verdict
`{isDeepfake, confidence, details}`. This project models the deterministic
logic around that:

- **Verdict computation** (`detection.dfy`, module `Detection`). This covers
  the filename heuristic `likelyTestFake` and the two answer shapes: a list of
  `{label, score}` entries, or a single object whose fields may be missing. It
  also covers the first-match score search, and the two decision and
  confidence rules. The list rule is unclamped; the single rule is clamped to 95.
- **Request handling** (`handler.dfy`, module `Handler`). This covers
  `GET /api/health` and `POST /api/analyze`: the order of the checks, the
  mapping of upstream errors to messages, the status and body of the reply,
  and whether the temporary upload is still on disk afterwards.
- **Port fallback** (`port_fallback.dfy`, module `PortFallback`).
  `startServer` moves to the next port on `EADDRINUSE` and stops on any other
  listen error.
- **Client server discovery** (`discovery.dfy`, module `ServerDiscovery`).
  The client probes 3000, 3001 and 3002, then retries with exponential
  backoff, and reruns this search on every 30-second poll. The model has two
  versions: the logic as written, and the run as it actually executes, where
  the undeclared `setError` throws.
- **Upload page** (`upload_page.dfy`, module `UploadPage`). This covers the
  image-type gate, the ordered guards before an upload, the simulated
  progress bar, and how each outcome of the request ends up in the page
  state.
- **JavaScript built-ins** (`js.dfy`, module `Js`). These are the built-ins
  the code relies on: optional fields, ASCII `toLowerCase`, `includes` (proved
  equal to a reference definition of substring occurrence), `startsWith`, the
  `a || b` fallback idiom and `Math.pow(2, k)`.

Scores are Dafny `real`s (exact arithmetic) and `Math.floor` is `.Floor`.
Timers, the network and the file system do not run in the model. Their
results are passed in as inputs instead: a probe outcome, an upstream
outcome, a count of progress ticks, or a flag saying whether a file is on
disk.

Behaviours of the code worth knowing, all kept by the model:

- the health endpoint lives at `/api/health`;
- after its last retry the client stays in status `"error"`, the same
  status it shows while it is still retrying;
- on the list path the +20 boost is not clamped, so confidence can reach 120;
- the port fallback tries the next port on every `EADDRINUSE` with no upper
  bound.

## Model

| member | source | states |
|---|---|---|
| Js.ToLower | server.js:126 | Lower-casing keeps the length, maps each character on its own, and leaves no ASCII upper-case letter |
| Js.Includes | server.js:138-143 | `includes` is true exactly when the substring occurs at some offset. The scan is proved equal to that reference definition |
| Js.MatchesFromSlices | server.js:139 | Comparing one character at a time agrees with comparing slices |
| Js.IncludesFromOccurs | server.js:139 | A left-to-right scan from offset i finds exactly the occurrences at or after i |
| Js.StartsWith | src/pages/DeepfakeDetection.jsx:34 | `startsWith` holds exactly when the prefix is no longer than the string and agrees with it character by character |
| Js.OrString | server.js:175 | `v \|\| fallback` on a string gives the fallback for a missing value or the empty string, and otherwise the value |
| Js.OrReal | server.js:176 | `v \|\| fallback` on a number gives the fallback for a missing value or zero, and otherwise the value |
| Js.Min | server.js:196 | `Math.min` is at most both arguments and equal to one of them |
| Js.Pow2 | src/App.jsx:58 | `Math.pow(2, k)` is at least 1 for every natural k, so every backoff wait is at least 1000 ms |
| Detection.LikelyTestFake | server.js:126-131 | True exactly when the lower-cased filename contains one of fake, deep, synth, ai, gen |
| Detection.IncludesAny | server.js:127-131 | The chain of `\|\|`-joined `includes` calls is true exactly when some marker occurs |
| Detection.LikelyTestFakeIgnoresCase | server.js:126 | Lower-casing the name first changes nothing, so the heuristic ignores letter case |
| Detection.MountainIsTestFake | server.js:126-131 | "mountain.jpg" counts as a test fake because it contains "ai" |
| Detection.LabelHas | server.js:138-143 | An entry's label matches a key exactly when the key occurs in the lower-cased label, so a match needs a label at least as long as the key (also the single-answer test at line 181) |
| Detection.LabelHasIgnoresCase | server.js:139 | Lower-casing the label first changes nothing: "FAKE", "Fake" and "fake" match alike |
| Detection.FindFirst | server.js:138-143 | `find` returns the first index whose lower-cased label contains the key, and returns none only when no label does |
| Detection.ScoreOf | server.js:145-147 | The extracted score is the score of the first matching entry, or 0 when no entry matches |
| Detection.ListVerdict | server.js:138-172 | fakeScore and realScore come from two separate first-match searches. With the filename override and fake > 0.01 the verdict is fake; in every other case (no override, or fake ≤ 0.01) it is `fake >= real - 0.15`. Confidence is floor(fake·100)+20 when fake, floor(real·100) otherwise |
| Detection.ListConfidenceBounds | server.js:164-166 | With scores in [0,1], a fake verdict's confidence is in [20,120] and a real verdict's in [0,100] |
| Detection.ListConfidenceExceeds100 | server.js:164-165 | The +20 boost is not clamped: a single "FAKE" entry scored 1.0 gives confidence 120 |
| Detection.EmptyListIsDeepfake | server.js:145-166 | An empty list gives a fake verdict with confidence 20 |
| Detection.ListOfFakeAndReal | server.js:138-160 | For the two entries `fake: f` and `real: r`, the scores are f and r. With the override and f > 0.01 the verdict is fake; otherwise it is `f >= r - 0.15` |
| Detection.SingleLabel | server.js:175 | A missing label reads as the empty string; a present label is used as it is |
| Detection.SingleScore | server.js:176 | The score is never 0: a missing or zero score reads as 0.5, and any other score is used as it is |
| Detection.SingleVerdict | server.js:175-203 | The details' fake and real scores add up to 1, and which one equals the score depends only on whether the label contains "fake". A label containing "fake", or the filename override, gives a fake verdict. Otherwise the verdict is fake exactly when score < 0.65 and the label lacks "real". A fake verdict's confidence is min(floor((1 - score)·100) + 20, 95); a real verdict's is floor(score·100), with a missing or zero score read as 0.5 |
| Detection.SingleConfidenceBounds | server.js:193-197 | With the score in [0,1], a fake verdict's confidence is in [20,95] and a real verdict's in [0,100] |
| Detection.ZeroScoreActsAsMissing | server.js:176 | A score of 0 gives the same verdict as a missing score. Both become 0.5, so the details are 0.5/0.5 |
| Detection.SingleDetailsIgnoreFilename | server.js:181-200 | The reported fake/real split is the same whether or not the filename override fires |
| Detection.ConfidentRealIsNotDeepfake | server.js:184-197 | A label containing "real" but not "fake", with score ≥ 0.65 and no override, gives a real verdict with confidence floor(score·100) |
| Detection.SureFakeLabelGetsLowConfidence | server.js:193-197 | A "fake" label scored 0.99 is judged fake with confidence only 21: the fake-verdict confidence measures 1 - score |
| Detection.Normalize | server.js:126-206 | A list answer is judged by the list rule and a single object by the single rule, both with the filename heuristic as override, and the verdict carries the raw answer. Any other value gives the unexpected-format failure |
| Detection.VacationIsNotTestFake | server.js:126-131 | "vacation.jpg" has no test marker |
| Detection.SeventyThirtyList | server.js:153-166 | fake 0.7 and real 0.3 give a fake verdict with confidence 90, with or without the override |
| Detection.VacationExample | server.js:126-172 | "vacation.jpg" with fake 0.7 and real 0.3 gives a fake verdict with confidence 90 |
| Detection.AiGeneratedExample | server.js:126-172 | "ai_generated.png" triggers the override, and the same scores give a fake verdict with confidence 90 |
| Detection.PhotoIsNotTestFake | server.js:126-131 | "photo.jpg" has no test marker |
| Detection.PhotoExample | server.js:173-203 | A single `{label: "real", score: 0.8}` on "photo.jpg" gives a real verdict with confidence 80 and details 0.2/0.8 |
| Handler.HealthCheck | server.js:61-70 | The health endpoint answers 2xx with status "ok" exactly when the API key is set. Otherwise it answers 503 `{status: "error", message}` |
| Handler.ClassifyUpstreamError | server.js:218-235 | Checked in order: status 401 gives the invalid-key message; else 503 gives model-loading; else a TypeError mentioning "fetch" gives the network message; else the message gets the "Failed to analyze image with AI model: " prefix |
| Handler.WrappedMessageRoundTrip | server.js:224-234 | Any error that is not a 401, not a 503 and not a TypeError mentioning "fetch" is wrapped: the message starts with the prefix, and removing the prefix gives back the original message |
| Handler.UnauthorizedWins | server.js:218-219 | A 401 gives the invalid-key message whatever the error's name and message |
| Handler.TypeErrorWithoutFetchIsWrapped | server.js:224-234 | A TypeError whose message does not mention "fetch" is wrapped, not reported as a network error |
| Handler.UnexpectedFormatIsWrapped | server.js:204-235 | The format error thrown for a non-object answer comes out of the inner catch wrapped with the prefix |
| Handler.FailWith | server.js:237-250 | The outer catch answers 500 `{error: "Error analyzing file", details}` and leaves no temporary file |
| Handler.Analyze | server.js:72-252 | The key is checked first: no key gives 500 with the key message. A missing file gives 400, and nothing else does. An upstream failure gives 500 with the classified message as `details`. The reply is 200 exactly when the key, the file, the read and a recognised answer are all there, and its verdict is the normalised answer. Every other reply is 500 "Error analyzing file". A failed file read reports its own message as `details`, without the prefix. The temporary file never outlives the request |
| Handler.KeyCheckedBeforeFile | server.js:76-86 | With no key and no file the reply is 500, not 400 |
| Handler.UpstreamFailureDetails | server.js:211-250 | An upstream failure reaches the client as the classified message in `details` |
| Handler.UnrecognizedAnswerDetails | server.js:204-250 | A non-object answer gives 500 with the details "Failed to analyze image with AI model: Unexpected response format from API" |
| PortFallback.StartServer | server.js:258-268 | The result port is at or above the start, and every port before it was busy with `EADDRINUSE`. A listening port has no listen error. A stop happens exactly at a port whose error was something other than `EADDRINUSE` |
| PortFallback.BoundPortIsLeastFree | server.js:258-268 | With only `EADDRINUSE` failures, the server listens on the least port at or above the start that is not busy |
| PortFallback.AlwaysBindsWithoutOtherErrors | server.js:261-264 | If the only errors are `EADDRINUSE`, the fallback always ends up listening |
| PortFallback.ThreeBusyPorts | server.js:255-264 | With 3000, 3001 and 3002 busy, starting at 3000 ends up listening on 3003 |
| PortFallback.OtherErrorStops | server.js:265-267 | A non-`EADDRINUSE` error at the start port stops the fallback there without listening |
| ServerDiscovery.HealthProbeSucceedsIffKey | src/App.jsx:28-40 | Probing the health endpoint succeeds exactly when the server's API key is set |
| ServerDiscovery.OkStatusWithErrorBodyFails | src/App.jsx:28-40 | A 200 whose body says "error" counts as a failed probe, and so does a 503 |
| ServerDiscovery.ProbeSucceeded | src/App.jsx:28-40 | A probe with no answer fails, a non-2xx answer fails, and a 2xx answer whose body status is not "ok" fails |
| ServerDiscovery.Step | src/App.jsx:28-67 | A successful probe sets status "running" and records the port. A failure at (3000, 0) or (3001, 0), and only there, probes the next port right away and leaves status and port unchanged. Backoff happens exactly on the other failures with retry < 3: status becomes "error" and the next retry waits 2^retry·1000 ms. Any other failure gives up with status "error". Every non-final step lowers the remaining-probe rank by one |
| ServerDiscovery.Discover | src/App.jsx:17-67 | A run ends, with at most rank + 1 probes. The i-th probe goes to the reference port `ProbePort(port, retry, i)`. The waits are a prefix of the reference backoff schedule 2^retry·1000, 2^(retry+1)·1000, … up to retry 3. Every probe except the last failed. The final status is "running" exactly when the last probe succeeded, and then the port is the last port probed. Otherwise status is "error" and the port is unchanged |
| ServerDiscovery.Schedule | src/App.jsx:55-59 | The reference backoff schedule from retry k has 3 - k waits (none from retry 3 on) |
| ServerDiscovery.BackoffDelay | src/App.jsx:58 | `Math.pow(2, retryCount) * 1000` is at least 1000 ms for every retry count |
| ServerDiscovery.FullSchedule | src/App.jsx:55-59 | From retry 0 the waits are 1000, 2000 and 4000 ms |
| ServerDiscovery.ScheduleAt | src/App.jsx:58 | The i-th wait of the schedule from retry k is 2^(k+i)·1000 ms |
| ServerDiscovery.ScheduleDoubles | src/App.jsx:58 | Each wait of the schedule is twice the one before |
| ServerDiscovery.BackoffDelaysDouble | src/App.jsx:55-59 | In every run, each wait is twice the one before |
| ServerDiscovery.FailingRunExhaustsRetries | src/App.jsx:45-67 | A run that never finds the server makes every probe its rank allows and waits out the whole reference schedule 2^retry·1000, …, 4000 ms, whatever the failing answers are: it goes on until retry 3 |
| ServerDiscovery.WaitsMatchRetries | src/App.jsx:45-59 | In every run, the waits number the probes after the immediate 3000 → 3001 → 3002 fallbacks, whether or not the server is found in the end |
| ServerDiscovery.FullSearchProbes | src/App.jsx:45-59 | The probes of any run from (3000, 0) are a prefix of 3000, 3001, 3002, 3002, 3002, 3002 |
| ServerDiscovery.FullSearchPorts | src/App.jsx:45-59 | From (3000, 0) the i-th probe goes to 3000, 3001, 3002, 3002, 3002, 3002 |
| ServerDiscovery.Poll | src/App.jsx:69-74 | Every poll starts at 3000, and its probes are a prefix of 3000, 3001, 3002, 3002, 3002, 3002. A poll that does not find the server makes all six probes and waits 1000, 2000 and 4000 ms. Every poll waits once before each probe after the third, also when it then finds the server |
| ServerDiscovery.DiscoverIgnoresState | src/App.jsx:17-69 | The probes and delays of a run do not depend on the status and port it starts with |
| ServerDiscovery.PollIgnoresCachedPort | src/App.jsx:15-79 | A poll probes the same ports whichever port the server was last found on |
| ServerDiscovery.AllProbesFail | src/App.jsx:45-67 | With no answers, the probes go 3000, 3001, 3002, 3002, 3002, 3002 with delays 1000, 2000 and 4000 ms, and the run ends in "error" with the port unchanged |
| ServerDiscovery.FoundOnAlternatePort | src/App.jsx:28-53 | A server answering on 3001 is found by the second probe with no delay |
| ServerDiscovery.StepAsExecuted | src/App.jsx:55-67 | As executed, a failure that would schedule a retry ends discovery with the same status change instead, so the step never backs off. Every other step is exactly the written `Step` |
| ServerDiscovery.DiscoverAsExecuted | src/App.jsx:14-67 | As executed, a run never waits and makes at most the immediate probes: 3 from (3000, 0), 2 from (3001, 0) and 1 otherwise. The i-th probe goes to the same reference port `ProbePort(port, retry, i)` as the written logic. A failing run makes 3 probes from (3000, 0), 2 from (3001, 0) and 1 otherwise, so it still tries 3001 and 3002 before stopping. Every probe but the last failed; the status is "running" exactly when the last succeeded, with that port recorded, and "error" with the port unchanged otherwise |
| ServerDiscovery.UndeclaredSetErrorStopsBackoff | src/App.jsx:55-67 | With no answers, the executed run probes 3000, 3001 and 3002 and stops in "error". The written logic would go on to back off 1000, 2000 and 4000 ms |
| UploadPage.SelectFile | src/pages/DeepfakeDetection.jsx:32-45 | A file is accepted exactly when it exists and its type starts with "image/". Acceptance selects it, clears result and error, and resets progress to 0. A rejection shows the alert and changes nothing |
| UploadPage.Acceptable | src/pages/DeepfakeDetection.jsx:34 | No file is never acceptable; a file is acceptable exactly when its type has "image/" as its first six characters |
| UploadPage.MimeTypeIsPrefixTest | src/pages/DeepfakeDetection.jsx:34 | "image/png" is accepted; "text/image" and no file are not |
| UploadPage.Guard | src/pages/DeepfakeDetection.jsx:47-65 | Guards are checked in order: server not running, then no file, then size > 5·1024·1024. The first one that fails gives its message. The upload goes ahead exactly when none fails |
| UploadPage.FiveMebibytesPass | src/pages/DeepfakeDetection.jsx:62 | Exactly 5 MiB passes the size guard; one byte more is rejected |
| UploadPage.Tick | src/pages/DeepfakeDetection.jsx:82-86 | One tick never lowers the progress and raises it by at most 5; it leaves it unchanged exactly when it is already 90 or more |
| UploadPage.Ticks | src/pages/DeepfakeDetection.jsx:81-87 | n ticks never lower the progress and raise it by at most 5n; from 90 or more they leave it unchanged |
| UploadPage.TickKeepsShape | src/pages/DeepfakeDetection.jsx:81-87 | A tick never lowers the progress, and it keeps the value a multiple of 5 up to 90, or 100 |
| UploadPage.TicksFrom | src/pages/DeepfakeDetection.jsx:81-87 | From a multiple of 5 up to 90, n ticks reach min(p + 5n, 90) |
| UploadPage.ProgressFromZero | src/pages/DeepfakeDetection.jsx:81-87 | From 0, progress is min(5n, 90) after n ticks. It first reaches 90 at the 18th tick |
| UploadPage.TicksKeepShape | src/pages/DeepfakeDetection.jsx:81-100 | Any number of ticks from a shown value, including 100, keeps the shape and never lowers it |
| UploadPage.FailureMessage | src/pages/DeepfakeDetection.jsx:102-118 | The abort gives the timeout message. A non-ok JSON reply gives its `error` field or "Analysis failed". A thrown error, and a reply whose body is not JSON, give their own message or, when it is empty, the fallback message. The message is never empty, and an ok JSON reply gives none |
| UploadPage.AnalyzeFile | src/pages/DeepfakeDetection.jsx:47-121 | A request is sent exactly when the guards pass. Otherwise only the error changes. After a request, `isAnalyzing` is false and the error comes from FailureMessage. Any reply sets progress to 100 and stops the timer. A thrown fetch leaves the timer running with progress at min(5·ticks, 90). An ok JSON reply becomes the result, and nothing else changes the result |
| UploadPage.FailureKeepsEarlierResult | src/pages/DeepfakeDetection.jsx:67-110 | A failed request leaves an earlier result on the page |
| UploadPage.ServerCheckedFirst | src/pages/DeepfakeDetection.jsx:47-53 | With the server not running, only the not-running error is set and nothing is sent |

## Findings

| source | as written | input that shows it | evidently intended | confidence | as-written member | corrected member |
|---|---|---|---|---|---|---|
| src/App.jsx:57 | `checkServer` calls `setError`, but `App` declares only `serverStatus` and `serverPort` (lines 14-15). The call throws a ReferenceError right after status is set to "error", so the retry timer at lines 58-59 is never set | No server answers on 3000, 3001 or 3002 | Retry 3002 after 1000, 2000 and 4000 ms, then give up | high; not executed | ServerDiscovery.DiscoverAsExecuted (shown by ServerDiscovery.UndeclaredSetErrorStopsBackoff) | ServerDiscovery.Discover (schedule proved in ServerDiscovery.AllProbesFail; used by ServerDiscovery.Poll) |

## Left out

- Js.ToLower: only ASCII letters are lower-cased, unlike JavaScript's full Unicode `toLowerCase`. The test markers and the labels "fake" and "real" are ASCII, so only exotic upper-case letters in names or labels could behave differently.
- Floating point: scores are exact reals, so IEEE-754 rounding in `score * 100` and `realScore - 0.15` is not modelled. A NaN score, which `||` would also replace with 0.5, is not modelled either.
- A `null` answer (its `typeof` is "object") and labels that are not strings make the code throw a TypeError, which the inner catch wraps. The model's answers always have string labels, and `Unrecognized` stands only for values that are not objects.
- The Hugging Face call and `fs.readFileSync` are inputs. The upstream outcome is given, and a read failure is given as its message.
- Handler.Analyze: `fs.unlinkSync` (server.js:116 and 243) is assumed to succeed. If the first unlink threw, a recognised answer would get 500 with the wrapped unlink message instead of 200. If the one in the outer catch threw, no reply would be sent at all. The model has no input for a failing unlink, because file-system failures are outside the handler logic it covers. "200 exactly when…" and "the temporary file never outlives the request" hold only under this assumption.
- Multer's 10 MiB limit and image-only filter (server.js:43-53) run before the handler, and their errors never reach it. CORS, `express.json` and the creation of the uploads directory are left out.
- `process.env.PORT`: a port taken from the environment is a string, and `port + 1` would concatenate rather than add. Only the numeric default 3000 is modelled. Ports above 65535, where `listen` fails in another way, are not modelled either.
- Timers and concurrency: the 5-second probe abort, the 5-minute upload abort, `setTimeout` and `setInterval` become probe outcomes, delays and tick counts. Overlapping poll runs and overlapping progress timers are not modelled. The fact that extra ticks keep progress in shape is the property stated instead.
- Probe outcomes past the end of the list given to `ServerDiscovery.Discover` count as no answer. A server that appears between two probes is expressed through that list.
- All `console` logging, and the `URL.revokeObjectURL` call in `handleFileUpload`.
- The fake-news page (src/pages/FakeNews.jsx) is left out: its scores come from `Math.random`, and URL validity comes from the platform URL parser. The home, about and navigation components and the routing in src/App.jsx:147-177 are markup only.
- src/App.jsx:81-145 is a dead duplicate of the page's upload logic that refers to state `App` never declares.
