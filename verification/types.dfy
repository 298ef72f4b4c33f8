/** Values exchanged by the lego wrapper: the inbound request, the scripted
    answers of its collaborators (GPU queue, ACE-Step backend, ffprobe, the
    file system), the outbound events it emits and the response it returns. */
module Types {

  newtype byte = x: int | 0 <= x < 256

  datatype Option<+T> = None | Some(value: T)

  /** Why a request failed: an HTTPException raised with a status code and a
      detail text, or any other exception (a missing JSON key, an empty list,
      a transport error), which the web framework answers with status 500. */
  datatype Failure = HttpError(code: int, detail: string) | Unexpected

  /** A step that either yields a value or fails. */
  datatype Outcome<+T> = Ok(value: T) | Fail(failure: Failure)

  /** What an outbound call did: it returned a reply, or it raised. */
  datatype Call<+T> = Returns(reply: T) | Raises

  /** An HTTP reply whose status code and body text are inspected. */
  datatype TextReply = TextReply(code: int, text: string)

  /** The reply to `/release_task`: `taskId` is `body["data"]["task_id"]`
      when the JSON body has that key, `None` when reading it raises. */
  datatype SubmitReply = SubmitReply(code: int, text: string, taskId: Option<string>)

  /** One entry of `/query_result`'s `data` list. `files` is the JSON list
      stored under `result` (None when the key is missing or is not a JSON
      list); each element is that entry's `file` key, if present. */
  datatype PollData = PollData(status: int, error: Option<string>, files: Option<seq<Option<string>>>)

  /** A reply whose status code and raw content are inspected. */
  datatype ByteReply = ByteReply(code: int, content: seq<byte>)

  /** The scripted behaviour of every collaborator during one request.
      `polls(k)` is the answer to the k-th status query. The outcomes of
      unload, release and unlink are swallowed by the source; they are kept
      here so that their irrelevance can be stated. */
  datatype World = World(
    probe: Option<real>,
    acquire: Call<int>,
    load: Call<TextReply>,
    submit: Call<SubmitReply>,
    polls: nat -> Call<PollData>,
    download: Call<ByteReply>,
    unload: Call<int>,
    release: Call<int>,
    unlink: Call<int>)

  /** The multipart fields of POST /lego as the endpoint receives them, after
      the web framework has filled in the defaults of the optional fields:
      `keyScale` and `caption` default to "", `batchSize` to
      `Settings.DefaultBatch`. An absent upload file name is "". */
  datatype Request = Request(
    audio: seq<byte>,
    filename: string,
    trackType: string,
    bpm: int,
    keyScale: string,
    batchSize: int,
    caption: string)

  /** Settings read once from the environment at start-up. */
  datatype Config = Config(acestepUrl: string, queueTokens: int, apiKey: string)

  type Headers = map<string, string>

  /** A form field value: a literal text, or Python's `str()` rendering of an
      integer or of a float. */
  datatype FormValue = Text(s: string) | Decimal(i: int) | Float(x: real)

  type Form = map<string, FormValue>

  /** The externally visible actions of one request, in order. */
  datatype Event =
    | CreateTemp(suffix: string, content: seq<byte>)
    | Probe
    | Acquire(session: string, tokens: int)
    | Load(headers: Headers)
    | Submit(headers: Headers, form: Form, upload: seq<byte>)
    | Poll(headers: Headers, taskId: string)
    | Fetch(headers: Headers, url: string)
    | Unload(headers: Headers)
    | Release(session: string)
    | Unlink
  {
    /** The calls made inside the inner `try`: load, submit, poll, fetch. */
    predicate IsForwardCall() { Load? || Submit? || Poll? || Fetch? }

    /** The calls made to the ACE-Step backend. */
    predicate CallsBackend() { IsForwardCall() || Unload? }
  }

  datatype Response =
    | Streamed(body: seq<byte>, mediaType: string, contentDisposition: string)
    | Failed(failure: Failure)

  /** The HTTP status code a caller observes. */
  function StatusCode(r: Response): int {
    match r
    case Streamed(_, _, _) => 200
    case Failed(HttpError(code, _)) => code
    case Failed(Unexpected) => 500
  }

  /** The result of a part of the workflow, with the events it emitted and
      the virtual clock when it ended. */
  datatype Run<+T> = Run(outcome: Outcome<T>, events: seq<Event>, clock: nat)

  /** The result of a whole request. */
  datatype Execution = Execution(response: Response, events: seq<Event>, clock: nat)

  /** Number of occurrences of `e` in `s`. */
  function Count(s: seq<Event>, e: Event): nat {
    multiset(s)[e]
  }
}
