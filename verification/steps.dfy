/** How the wrapper reads each collaborator's answer: which answers let the
    workflow go on, and which failure each of the others becomes. */
module Steps {
  import opened Types
  import opened Settings

  /** The queue grants the GPU tokens when it answers 200 or 201; any other
      status, and any exception, is a refusal. */
  predicate AcquireGranted(reply: Call<int>) {
    match reply
    case Returns(code) => code in {200, 201}
    case Raises => false
  }

  /** `/v1/load`: anything but 200 is an upstream failure carrying the body;
      a transport error escapes as an unexpected exception. */
  function LoadStep(reply: Call<TextReply>): (r: Outcome<()>)
    ensures r.Ok? <==> reply.Returns? && reply.reply.code == 200
    ensures r.Fail? && reply.Returns? ==>
              r.failure == HttpError(502, "ACE-Step /v1/load failed: " + reply.reply.text)
    ensures reply.Raises? ==> r == Fail(Unexpected)
  {
    match reply
    case Raises => Fail(Unexpected)
    case Returns(TextReply(code, text)) =>
      if code != 200 then Fail(HttpError(502, "ACE-Step /v1/load failed: " + text)) else Ok(())
  }

  /** `/release_task`: a 200 whose body holds `data.task_id` yields that id;
      another status is an upstream failure; a 200 without the id, or a
      transport error, is an unexpected exception. */
  function SubmitStep(reply: Call<SubmitReply>): (r: Outcome<string>)
    ensures r.Ok? <==> reply.Returns? && reply.reply.code == 200 && reply.reply.taskId.Some?
    ensures r.Ok? ==> r.value == reply.reply.taskId.value
    ensures reply.Returns? && reply.reply.code != 200 ==>
              r == Fail(HttpError(502, "ACE-Step /release_task failed: " + reply.reply.text))
    ensures reply.Raises? || (reply.reply.code == 200 && reply.reply.taskId.None?) ==> r == Fail(Unexpected)
  {
    match reply
    case Raises => Fail(Unexpected)
    case Returns(SubmitReply(code, text, taskId)) =>
      if code != 200 then Fail(HttpError(502, "ACE-Step /release_task failed: " + text))
      else match taskId
        case None => Fail(Unexpected)
        case Some(id) => Ok(id)
  }

  /** What one status query decides. */
  datatype PollStep = Finished(data: PollData) | Aborted(failure: Failure) | StillPending

  /** Python's rendering of `data.get('error')` inside the failure message. */
  function ErrorText(error: Option<string>): string {
    match error
    case Some(e) => e
    case None => "None"
  }

  /** The text of the failure raised when the backend reports status 2. */
  function GenerationFailedDetail(error: Option<string>): string {
    "ACE-Step generation failed: " + ErrorText(error)
  }

  /** Status 1 ends polling with the task's data, status 2 with an upstream
      failure quoting the backend's error, any other status asks again; an
      unreadable reply or a transport error escapes as unexpected. */
  function Classify(reply: Call<PollData>): PollStep {
    match reply
    case Raises => Aborted(Unexpected)
    case Returns(data) =>
      if data.status == 1 then Finished(data)
      else if data.status == 2 then Aborted(HttpError(502, GenerationFailedDetail(data.error)))
      else StillPending
  }

  /** Only status 1 finishes, with the reply's own data; status 2 aborts
      with a 502 quoting the backend's error; a reply that cannot be read
      aborts as unexpected; and exactly the other statuses ask again. */
  lemma ClassifySpec(reply: Call<PollData>)
    ensures var s := Classify(reply);
            && (s.Finished? <==> reply.Returns? && reply.reply.status == 1)
            && (s.Finished? ==> s.data == reply.reply)
            && (reply.Returns? && reply.reply.status == 2 ==>
                  s == Aborted(HttpError(502, GenerationFailedDetail(reply.reply.error))))
            && (reply.Raises? ==> s == Aborted(Unexpected))
            && (s.StillPending? <==> reply.Returns? && reply.reply.status != 1 && reply.reply.status != 2)
  {
  }

  /** The path of the first generated file: the `file` key of the first
      element of the JSON list under `result`; a missing key, a non-list or an
      empty list raises. */
  function FirstFilePath(data: PollData): (r: Outcome<string>)
    ensures r.Ok? <==> data.files.Some? && |data.files.value| > 0 && data.files.value[0].Some?
    ensures r.Ok? ==> r.value == data.files.value[0].value
    ensures r.Fail? ==> r.failure == Unexpected
  {
    match data.files
    case None => Fail(Unexpected)
    case Some(files) =>
      if |files| == 0 then Fail(Unexpected)
      else match files[0]
        case None => Fail(Unexpected)
        case Some(path) => Ok(path)
  }

  /** The download of the generated file: a 200 yields its bytes unchanged,
      another status is an upstream failure, a transport error unexpected. */
  function DownloadStep(reply: Call<ByteReply>): (r: Outcome<seq<byte>>)
    ensures r.Ok? <==> reply.Returns? && reply.reply.code == 200
    ensures r.Ok? ==> r.value == reply.reply.content
    ensures reply.Returns? && reply.reply.code != 200 ==> r == Fail(HttpError(502, DownloadFailedDetail))
    ensures reply.Raises? ==> r == Fail(Unexpected)
  {
    match reply
    case Raises => Fail(Unexpected)
    case Returns(ByteReply(code, content)) =>
      if code != 200 then Fail(HttpError(502, DownloadFailedDetail)) else Ok(content)
  }
}
