/** The wrapper as it runs a request: an object holding the events emitted so
    far and the virtual clock, whose methods take the endpoint's steps one
    after the other and are each proved to do what the corresponding part of
    `Workflow.Lego` describes. */
module Service {
  import opened Types
  import opened Settings
  import opened Steps
  import opened Polling
  import Workflow

  class Wrapper {
    /** The settings read from the environment at start-up. */
    const config: Config
    /** Every externally visible action taken so far, in order. */
    var trace: seq<Event>
    /** Seconds on the virtual clock. */
    var clock: nat

    constructor(cfg: Config, start: nat)
      ensures config == cfg && trace == [] && clock == start
    {
      config := cfg;
      trace := [];
      clock := start;
    }

    /** `_acquire_gpu_token`: asks the queue for the configured number of
        tokens under session `sid`; granted on 200 or 201 only. */
    method AcquireGpuToken(w: World, sid: string) returns (ok: bool)
      modifies this
      ensures ok <==> AcquireGranted(w.acquire)
      ensures trace == old(trace) + [Acquire(sid, config.queueTokens)] && clock == old(clock)
    {
      trace := trace + [Acquire(sid, config.queueTokens)];
      match w.acquire
      case Returns(code) => ok := code == 200 || code == 201;
      case Raises => ok := false;
    }

    /** `_release_gpu_token`: reports session `sid` completed; whatever the
        queue answers, and any exception, is swallowed. */
    method ReleaseGpuToken(w: World, sid: string)
      modifies this
      ensures trace == old(trace) + [Release(sid)] && clock == old(clock)
    {
      trace := trace + [Release(sid)];
    }

    /** `_load_model`. */
    method LoadModel(w: World) returns (r: Outcome<()>)
      modifies this
      ensures r == LoadStep(w.load)
      ensures trace == old(trace) + [Load(AceStepHeaders(config.apiKey))] && clock == old(clock)
    {
      trace := trace + [Load(AceStepHeaders(config.apiKey))];
      match w.load
      case Raises => r := Fail(Unexpected);
      case Returns(reply) =>
        if reply.code != 200 {
          r := Fail(HttpError(502, "ACE-Step /v1/load failed: " + reply.text));
        } else {
          r := Ok(());
        }
    }

    /** `_unload_model`: best effort, its outcome is swallowed. */
    method UnloadModel(w: World)
      modifies this
      ensures trace == old(trace) + [Unload(AceStepHeaders(config.apiKey))] && clock == old(clock)
    {
      trace := trace + [Unload(AceStepHeaders(config.apiKey))];
    }

    /** `_submit_lego`: posts the lego form and the uploaded bytes, and
        yields the task id the backend assigns. */
    method SubmitLego(w: World, req: Request, caption: string, duration: real) returns (r: Outcome<string>)
      modifies this
      ensures r == SubmitStep(w.submit)
      ensures trace == old(trace) + [Submit(AceStepHeaders(config.apiKey),
                                            SubmitForm(req.trackType, caption, req.bpm, req.keyScale,
                                                       duration, req.batchSize),
                                            req.audio)]
      ensures clock == old(clock)
    {
      var form := SubmitForm(req.trackType, caption, req.bpm, req.keyScale, duration, req.batchSize);
      trace := trace + [Submit(AceStepHeaders(config.apiKey), form, req.audio)];
      match w.submit
      case Raises => r := Fail(Unexpected);
      case Returns(reply) =>
        if reply.code != 200 {
          r := Fail(HttpError(502, "ACE-Step /release_task failed: " + reply.text));
        } else if reply.taskId.None? {
          r := Fail(Unexpected);
        } else {
          r := Ok(reply.taskId.value);
        }
    }

    /** One status query of `_poll_until_done`: asks about the task and
        reads the reply's status. */
    method QueryResult(w: World, taskId: string, k: nat) returns (step: PollStep)
      modifies this
      ensures step == Classify(w.polls(k))
      ensures trace == old(trace) + [Poll(AceStepHeaders(config.apiKey), taskId)] && clock == old(clock)
    {
      trace := trace + [Poll(AceStepHeaders(config.apiKey), taskId)];
      match w.polls(k)
      case Raises =>
        step := Aborted(Unexpected);
      case Returns(data) =>
        if data.status == 1 {
          step := Finished(data);
        } else if data.status == 2 {
          step := Aborted(HttpError(502, GenerationFailedDetail(data.error)));
        } else {
          step := StillPending;
        }
    }

    /** `_poll_until_done`: queries the task until its status is terminal,
        sleeping `PollInterval` seconds after each pending answer, and gives
        up with 504 once `GenerationTimeout` seconds have passed. */
    method PollUntilDone(w: World, taskId: string) returns (r: Outcome<PollData>)
      modifies this
      ensures var p := PollLoop(AceStepHeaders(config.apiKey), taskId, w.polls, 0,
                                old(clock), old(clock) + GenerationTimeout);
              r == p.outcome && trace == old(trace) + p.events && clock == p.clock
    {
      var h := AceStepHeaders(config.apiKey);
      var deadline := clock + GenerationTimeout;
      ghost var whole := PollLoop(h, taskId, w.polls, 0, clock, deadline);
      ghost var done: seq<Event> := [];
      var k: nat := 0;
      while clock < deadline
        invariant trace == old(trace) + done
        invariant Resumes(h, taskId, w.polls, k, clock, deadline, whole, done)
        decreases deadline - clock
      {
        var step := QueryResult(w, taskId, k);
        if !step.StillPending? {
          ResumeStops(h, taskId, w.polls, k, clock, deadline, whole, done);
          return if step.Finished? then Ok(step.data) else Fail(step.failure);
        }
        ResumeContinues(h, taskId, w.polls, k, clock, deadline, whole, done);
        done := done + [Poll(h, taskId)];
        clock := clock + PollInterval;
        k := k + 1;
      }
      ResumeTimesOut(h, taskId, w.polls, k, clock, deadline, whole, done);
      return Fail(HttpError(504, TimedOutDetail));
    }

    /** `_download_first_audio`: fetches the first generated file from the
        backend and yields its bytes. */
    method DownloadFirstAudio(w: World, data: PollData) returns (r: Outcome<seq<byte>>)
      modifies this
      ensures FirstFilePath(data).Fail? ==> r == Fail(Unexpected) && trace == old(trace)
      ensures FirstFilePath(data).Ok? ==>
                && r == DownloadStep(w.download)
                && trace == old(trace) + [Fetch(AceStepHeaders(config.apiKey),
                                                config.acestepUrl + FirstFilePath(data).value)]
      ensures clock == old(clock)
    {
      var path := FirstFilePath(data);
      if path.Fail? {
        return Fail(Unexpected);
      }
      trace := trace + [Fetch(AceStepHeaders(config.apiKey), config.acestepUrl + path.value)];
      match w.download
      case Raises => r := Fail(Unexpected);
      case Returns(reply) =>
        if reply.code != 200 {
          r := Fail(HttpError(502, DownloadFailedDetail));
        } else {
          r := Ok(reply.content);
        }
    }

    /** The inner `try` body of the endpoint: load, submit, poll, download. */
    method Forward(w: World, req: Request, caption: string, duration: real) returns (r: Outcome<seq<byte>>)
      modifies this
      ensures var f := Workflow.Forward(config, req, caption, duration, w, old(clock));
              r == f.outcome && trace == old(trace) + f.events && clock == f.clock
    {
      var loaded := LoadModel(w);
      if loaded.Fail? {
        return Fail(loaded.failure);
      }
      var taskId := SubmitLego(w, req, caption, duration);
      if taskId.Fail? {
        return Fail(taskId.failure);
      }
      var data := PollUntilDone(w, taskId.value);
      if data.Fail? {
        return Fail(data.failure);
      }
      r := DownloadFirstAudio(w, data.value);
    }

    /** The outer `try` body: probe, acquire, and the inner steps, after
        which the model is always unloaded and the token released. */
    method Guarded(w: World, req: Request, caption: string, sid: string) returns (response: Response)
      modifies this
      ensures var g := Workflow.Guarded(config, req, caption, w, sid, old(clock));
              response == g.response && trace == old(trace) + g.events && clock == g.clock
    {
      trace := trace + [Probe];
      if w.probe.None? {
        return Failed(HttpError(400, NoDurationDetail));
      }
      var ok := AcquireGpuToken(w, sid);
      if !ok {
        return Failed(HttpError(503, QueueUnavailableDetail));
      }
      var audio := Forward(w, req, caption, w.probe.value);
      UnloadModel(w);
      ReleaseGpuToken(w, sid);
      if audio.Ok? {
        response := Streamed(audio.value, MediaType, Disposition(req.trackType));
      } else {
        response := Failed(audio.failure);
      }
    }

    /** POST /lego under session id `sid`. */
    method Lego(w: World, req: Request, sid: string) returns (response: Response)
      modifies this
      ensures var x := Workflow.Lego(config, req, w, sid, old(clock));
              response == x.response && trace == old(trace) + x.events && clock == x.clock
    {
      if req.trackType !in AllowedTracks {
        return Failed(HttpError(400, BadTrackDetail));
      }
      var caption := EffectiveCaption(req.caption, req.trackType);
      ghost var before := trace;
      ghost var g := Workflow.Guarded(config, req, caption, w, sid, clock);
      Workflow.LegoUnfold(config, req, w, sid, clock);
      var temp := CreateTemp(TempSuffix(req.filename), req.audio);
      trace := trace + [temp];
      response := Guarded(w, req, caption, sid);
      trace := trace + [Unlink];
      Appended(before, [temp], g.events, [Unlink]);
    }
  }

  /** Reassociation of the trace appended by `Lego`, kept apart for solver cost. */
  lemma Appended(a: seq<Event>, b: seq<Event>, c: seq<Event>, d: seq<Event>)
    ensures a + b + c + d == a + (b + c + d)
  {
  }
}
