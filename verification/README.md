# ACE-Step lego wrapper, modelled in Dafny

The wrapper is a small web service in front of the ACE-Step music model.
Its `POST /lego` endpoint validates the track type, picks a caption, writes
the upload to a temporary file, probes its duration, and acquires GPU tokens
from the queue service. It then loads the model, submits a "lego" generation
task and polls the task until it reaches a terminal status. Last, it
downloads the first generated file and streams it back. Two nested
`try/finally` blocks guarantee the cleanup: once a token is granted the
model is unloaded and the token released, and once the upload has been
written to the temporary file that file is removed. The file is created
before the outer `try` begins (wrapper/main.py:231-235), so a failure while
writing it leaves it behind; that path is not modelled (see "Left out").
`GET /health` reports whether the backend answers.

The model treats every collaborator as a script: the queue, the ACE-Step
backend, ffprobe and the file system. A `World` value fixes what each call
returns or whether it raises, and `polls(k)` is the answer to the k-th
status query. Under that script the endpoint is deterministic.

- `Workflow.Lego` is the whole request as a function. It yields the HTTP
  response, the ordered trace of externally visible events (temp file,
  probe, acquire, load, submit, poll, fetch, unload, release, unlink) and
  the final reading of a virtual clock.
- `Service.Wrapper` is the imperative form. It is an object holding the
  trace and the clock, with one method per helper of the endpoint and a
  `while` loop for the polling. Each method is proved to produce exactly
  what the corresponding function produces.
- The virtual clock advances only by the `PollInterval` sleep after a
  pending answer. A 300-second timeout therefore allows exactly 100 status
  queries before the 504.

Modules:

- `types.dfy`: requests, scripted replies, events, responses.
- `text.dfy`: Python's `str.strip()` and `PurePath.suffix`.
- `settings.dfy`: constants, track presets, headers, caption, form, health.
- `steps.dfy`: how each reply is read.
- `polling.dfy`: the polling loop.
- `workflow.dfy`: the request as a function, and its properties.
- `service.dfy`: the imperative object.

File name suffixes follow `PurePath.suffix` as Python 3.13 and earlier
compute it: a final component that ends with a dot, or whose only dot is
its first character, has no suffix.

The caption is sent trimmed, not verbatim. The code applies `caption.strip()`
(wrapper/main.py:227), so a caption with surrounding whitespace reaches the
backend without it. The model follows the code.

## Model

| member | source | states |
|---|---|---|
| `Settings.AceStepHeaders` | wrapper/main.py:60-63 | a bearer `Authorization` header is present exactly when an API key is configured, and is then the only entry; with no key the headers are empty |
| `Text.Strip` | wrapper/main.py:227 | Python's `str.strip()`; what it returns is stated by `Text.StripSpec` |
| `Text.PathSuffix` | wrapper/main.py:230 | `PurePath.suffix`; what it returns is stated by `Text.PathSuffixSpec` and `Text.NoSuffixIff` |
| `Settings.TempSuffix` | wrapper/main.py:230 | the temporary file's suffix; stated by `Settings.TempSuffixSpec` and `Settings.DefaultSuffix` |
| `Settings.SubmitForm` | wrapper/main.py:137-152 | the lego submission form; stated by `Settings.SubmitFormKeys`, `Settings.SubmitFormValues` and `Settings.SubmitFormConstants` |
| `Settings.EffectiveCaption` | wrapper/main.py:227 | a blank caption is replaced by the track's preset; any other caption is sent stripped and non-empty |
| `Settings.CaptionTrimmed` | wrapper/main.py:227 | a non-blank caption is sent as the slice of the caller's text between its first and last non-whitespace characters, with only whitespace cut on either side |
| `Text.StripSpec` | wrapper/main.py:227 | `strip()` is empty exactly for blank text; otherwise it is a slice with non-space ends and only whitespace around it |
| `Text.PathNameSpec` | wrapper/main.py:230 | the final path component ends the path, contains no separator, and starts right after the path's last separator when there is one |
| `Text.PathSuffixSpec` | wrapper/main.py:230 | a suffix is a dot followed by at least one character, free of dots and separators, ending the path after a non-empty stem |
| `Text.NoSuffixIff` | wrapper/main.py:230 | a path has no suffix exactly when its last component ends with a dot or has no dot after its first character |
| `Settings.DefaultSuffix` | wrapper/main.py:230 | a nameless upload is stored with the suffix ".wav" |
| `Settings.TempSuffixSpec` | wrapper/main.py:230-231 | the temporary file always gets a proper suffix: the upload's own when it has one, ".wav" otherwise |
| `Settings.SubmitFormKeys` | wrapper/main.py:137-152 | the form holds the twelve fixed fields, plus `key_scale` exactly when a key is given |
| `Settings.SubmitFormValues` | wrapper/main.py:137-152 | track name, caption, bpm, batch size, duration and key land under their own keys |
| `Settings.SubmitFormConstants` | wrapper/main.py:138-148 | the fixed fields are a lego task in 4/4 with 50 inference steps, no reasoning, and repainting from 0.0 to -1 |
| `Settings.FormCaption` | wrapper/main.py:140 | the submitted caption is the stripped caller caption, or the preset when the caption is blank |
| `Settings.Health` | wrapper/main.py:282-296 | the wrapper reports itself ok; the backend is "ok" exactly when its health check answers 200, otherwise "unreachable" |
| `Steps.LoadStep` | wrapper/main.py:104-111 | the load succeeds exactly on 200; another status is a 502 quoting the body; a transport error is unexpected |
| `Steps.SubmitStep` | wrapper/main.py:160-164 | a task id is yielded exactly for a 200 reply that carries one; another status is a 502 quoting the body; a 200 without `data.task_id`, or a transport error, fails as unexpected |
| `Steps.AcquireGranted` | wrapper/main.py:87-89 | the queue grants the tokens exactly on 200 or 201; an exception is a refusal |
| `Steps.Classify` | wrapper/main.py:176-182 | what one status reply decides; stated by `Steps.ClassifySpec` |
| `Steps.ClassifySpec` | wrapper/main.py:176-182 | status 1 finishes with the reply's own data, status 2 aborts with a 502 quoting the error, an unreadable reply aborts as unexpected, and exactly the other statuses ask again |
| `Steps.FirstFilePath` | wrapper/main.py:188-189 | the path is the first result entry's `file`; a missing or empty list or key fails as unexpected |
| `Steps.DownloadStep` | wrapper/main.py:190-197 | a 200 yields the downloaded bytes unchanged; another status is a 502; a transport error fails as unexpected |
| `Polling.PollLoop` | wrapper/main.py:167-183 | the polling loop as intended, with a sleep after every pending reply; stated by the `Polling` lemmas below |
| `Polling.PollLoopShape` | wrapper/main.py:167-183 | the loop queries only its task, at most once per interval before the deadline, sleeps at most the budget, and ends with data, 502, 504 or unexpected |
| `Polling.PollTimesOutIff` | wrapper/main.py:168-183 | the loop times out exactly when every query it has time for answers "pending", after exactly that many queries |
| `Polling.PollStopsAtFirstTerminal` | wrapper/main.py:168-182 | the first non-pending reply decides the outcome, after that many queries and sleeps |
| `Polling.PollEndsAtTerminal` | wrapper/main.py:168-182 | a loop that does not time out stopped at a first non-pending reply within the budget |
| `Polling.FirstTerminalUnique` | wrapper/main.py:168-182 | there is only one first non-pending reply |
| `Polling.PollLoopAsWritten` | wrapper/main.py:167-183 | the loop as deployed, where `asyncio` is unbound: a pending reply ends it as unexpected after one query; stated by `Polling.AsWrittenDiverges` and `Polling.PendingThenDoneAsWritten` |
| `Polling.AsWrittenDiverges` | wrapper/main.py:167-183 | the deployed loop makes at most one query, and differs from the intended loop exactly when that first reply is pending, which it turns into an unexpected failure |
| `Polling.PendingThenDoneAsWritten` | wrapper/main.py:167-183 | a "pending" then "done" backend makes the deployed loop fail where the intended loop returns the data |
| `Workflow.Forward` | wrapper/main.py:248-263 | the inner `try` body; stated by `Workflow.ForwardEvents`, `Workflow.ForwardQueriesTask`, `Workflow.ForwardOutcome` and `Workflow.ForwardDelivers` |
| `Workflow.Guarded` | wrapper/main.py:235-267 | probe, acquire, the inner steps, unload and release; stated by the `Workflow` lemmas on the granted, refused and probe-failure paths |
| `Workflow.Lego` | wrapper/main.py:204-279 | the whole request; stated by the `Workflow` lemmas below |
| `Workflow.ForwardEvents` | wrapper/main.py:248-263 | the inner steps load first, then submit the request's form, and every one of their calls carries the backend headers |
| `Workflow.ForwardQueriesTask` | wrapper/main.py:253-262 | after the submission come only status queries for the task id the backend returned, and at most one download, last; a failed submission ends the steps |
| `Workflow.ForwardOutcome` | wrapper/main.py:248-263 | the inner steps fail only with 502, 504 or unexpected, with 504 exactly when every query in the timeout is pending, and sleep at most the timeout in total |
| `Workflow.ForwardStopsAt` | wrapper/main.py:254-263 | the first non-pending reply decides the inner steps: their outcome, how long they sleep, and what they fetch and from where |
| `Workflow.ValidationFirst` | wrapper/main.py:224-233 | a track type outside the presets is a 400 with no event at all; any other request first writes the temporary file |
| `Workflow.ProbeFailureCleansUp` | wrapper/main.py:236-238 | an unreadable duration is a 400 after only the probe, and the temporary file is still removed |
| `Workflow.RefusalCompensatesNothing` | wrapper/main.py:244-246 | a refused or failed token request is a 503; nothing is loaded, unloaded or released |
| `Workflow.GrantedEvents` | wrapper/main.py:230-279 | a granted request runs temp file, probe, acquire, the inner steps, then unload, release and unlink |
| `Workflow.GrantedCompensatesOnce` | wrapper/main.py:248-267 | once the token is granted, however the inner steps end, the load comes first and unload, release and unlink end the trace, in that order |
| `Workflow.NeverLeaks` | wrapper/main.py:248-279 | on every modelled path (the upload written to the temporary file) the token is released exactly when granted, the model is unloaded exactly when released, and the temporary file is removed exactly when written, last |
| `Workflow.GrantedResponse` | wrapper/main.py:244-273 | a granted request answers with the inner steps' audio, or with their failure |
| `Settings.Disposition` | wrapper/main.py:272 | the attachment name `<track>.mp3`; stated by `Workflow.SuccessResponse` |
| `Workflow.SuccessResponse` | wrapper/main.py:258-273 | a delivered request is answered with the downloaded bytes as `audio/mpeg` named after the track, fetched from the base URL plus the reported path |
| `Workflow.ForwardDelivers` | wrapper/main.py:248-263 | inner steps that end with audio passed the load, the submission, a first finished query with a file path, and a 200 download |
| `Workflow.StreamedOnlyIfDelivered` | wrapper/main.py:248-273 | audio is returned only when some query finishes with a file and its download answers 200 |
| `Workflow.StatusCodes` | wrapper/main.py:224-273 | the status codes 400, 503 and 504 each mean exactly one kind of failure; for a request whose form fields parse, no other codes than 200, 400, 500, 502, 503 and 504 occur |
| `Workflow.GenerationFailureIs502` | wrapper/main.py:179-180 | a task reported failed is a 502 quoting the backend's error, still followed by unload, release and unlink |
| `Workflow.LoadRejected` | wrapper/main.py:110-111 | a rejected load is a 502 with the backend's text, with nothing submitted, and the model is still unloaded and the token released |
| `Workflow.SubmitRejected` | wrapper/main.py:160-161 | a rejected submission is a 502 with the backend's text, with nothing polled, and cleanup still runs |
| `Workflow.SubmittedForm` | wrapper/main.py:252-256 | the fifth event submits the request's form with the effective caption, the probed duration, the backend headers and the uploaded bytes |
| `Workflow.BackendCallsCarryHeaders` | wrapper/main.py:60-63 | every load, submit, poll, fetch and unload carries the headers built from the API key |
| `Workflow.ElapsedWithinTimeout` | wrapper/main.py:167-183 | the time slept between status queries totals at most `GenerationTimeout` seconds |
| `Workflow.CompensationOutcomesIgnored` | wrapper/main.py:264-279 | whatever unload, release and unlink answer or raise, the response and the trace are unchanged |
| `Service.Wrapper.constructor` | wrapper/main.py:34-38 | a fresh wrapper holds its configuration, an empty trace and the start time |
| `Service.Wrapper.AcquireGpuToken` | wrapper/main.py:79-89 | the token is granted exactly when the queue answers 200 or 201; one acquire event for the session |
| `Service.Wrapper.ReleaseGpuToken` | wrapper/main.py:92-101 | emits one release for the session, whatever the queue answers |
| `Service.Wrapper.LoadModel` | wrapper/main.py:104-111 | emits one load with the backend headers and decides as `LoadStep` |
| `Service.Wrapper.UnloadModel` | wrapper/main.py:114-122 | emits one unload with the backend headers, whatever the backend answers |
| `Service.Wrapper.SubmitLego` | wrapper/main.py:125-164 | emits one submission of the lego form and the upload, and decides as `SubmitStep` |
| `Service.Wrapper.QueryResult` | wrapper/main.py:170-182 | emits one status query for the task with the backend headers and reads the reply as `Classify` does |
| `Service.Wrapper.PollUntilDone` | wrapper/main.py:167-183 | the loop's result, trace and clock are those of `PollLoop` from the current time to the timeout |
| `Service.Wrapper.DownloadFirstAudio` | wrapper/main.py:186-197 | fetches the first file's path from the base URL, and yields its bytes on 200 |
| `Service.Wrapper.Forward` | wrapper/main.py:248-263 | the inner steps' result, trace and clock are those of `Workflow.Forward` |
| `Service.Wrapper.Guarded` | wrapper/main.py:235-267 | probe, acquire, inner steps, unload and release as `Workflow.Guarded` describes |
| `Service.Wrapper.Lego` | wrapper/main.py:204-279 | the endpoint's response, trace and clock are those of `Workflow.Lego` |

## Left out

- HTTP transport, multipart encoding, FastAPI routing and the mechanics of
  `StreamingResponse`. Every call is a scripted reply or exception, and the
  response is a value.
- The ffprobe subprocess (wrapper/main.py:66-76). The probe is an
  `Option<real>` that is `None` when ffprobe fails or prints no number.
- Python's `str()` rendering of the integer and float form fields. The form
  holds `Decimal(n)` and `Float(x)` values instead of their text.
- Wall-clock time, request latency and the millisecond timestamp in the
  session id. The id is a parameter, and only the sleeps between status
  queries advance the clock.
- JSON decoding of replies. A reply either carries the fields the code reads
  or is a scripted exception (`Raises`, or a `None` field).
- A failure to read the upload or to write it to the temporary file
  (wrapper/main.py:231-233). The model treats the write as successful. In
  the source the file is created before the outer `try`, so on this path it
  is never removed and the request ends with 500: the source leaks the file.
- Path normalisation of uploaded names beyond the last `/`. Trailing
  slashes and `.` components are not modelled.
- Reading the configuration from the environment (wrapper/main.py:34-38),
  including the `rstrip("/")` of the URLs. The `Config` value is taken as
  already read.
- The queue URL and the "completed" status text sent on release.
- Concurrency between requests. Each request is independent.
- The build-time patch scripts under ACE-Step-1.5/docker-patches. They hold
  no logic of the wrapper.

## Findings

| source | as written | input that shows it | evidently intended | confidence | as-written member | corrected member |
|---|---|---|---|---|---|---|
| wrapper/main.py:167-183 | `asyncio` is imported only inside `lego` and under `__main__`. When uvicorn imports the module, `asyncio.sleep` in `_poll_until_done` is an unbound name, so the first "pending" answer raises NameError and the request ends with 500 | a backend answering status 0, then status 1 | sleep `POLL_INTERVAL` seconds and query again until the timeout | not executed | `Polling.PendingThenDoneAsWritten` (on `Polling.PollLoopAsWritten`) | `Polling.PollLoop`, with `Polling.PollTimesOutIff` and `Polling.PollStopsAtFirstTerminal` |
