/** The `/lego` request as a function of its inputs and of its collaborators'
    scripted answers: the response and the events it emits, in order. The
    nesting follows the endpoint: validation, then the temporary file whose
    removal closes every path, then probe and acquire, then the load ..
    download steps whose every exit is followed by unload and release. */
module Workflow {
  import opened Types
  import opened Settings
  import opened Steps
  import opened Polling
  import Text

  /** Queries that fit in the generation timeout. */
  const PollCount := GenerationTimeout / PollInterval

  /** The inner `try` body: load, submit, poll, download. */
  function Forward(cfg: Config, req: Request, caption: string, duration: real,
                   w: World, now: nat): Run<seq<byte>>
  {
    var h := AceStepHeaders(cfg.apiKey);
    match LoadStep(w.load)
    case Fail(failure) => Run(Fail(failure), [Load(h)], now)
    case Ok(_) =>
      var form := SubmitForm(req.trackType, caption, req.bpm, req.keyScale, duration, req.batchSize);
      var sent := [Load(h), Submit(h, form, req.audio)];
      match SubmitStep(w.submit)
      case Fail(failure) => Run(Fail(failure), sent, now)
      case Ok(taskId) =>
        var p := PollLoop(h, taskId, w.polls, 0, now, now + GenerationTimeout);
        var polled := sent + p.events;
        match p.outcome
        case Fail(failure) => Run(Fail(failure), polled, p.clock)
        case Ok(data) =>
          match FirstFilePath(data)
          case Fail(failure) => Run(Fail(failure), polled, p.clock)
          case Ok(path) =>
            Run(DownloadStep(w.download), polled + [Fetch(h, cfg.acestepUrl + path)], p.clock)
  }

  /** The outer `try` body: probe, acquire, and the guarded steps followed
      by unload and release. */
  function Guarded(cfg: Config, req: Request, caption: string, w: World,
                   sid: string, now: nat): Execution
  {
    match w.probe
    case None => Execution(Failed(HttpError(400, NoDurationDetail)), [Probe], now)
    case Some(duration) =>
      var asked := [Probe, Acquire(sid, cfg.queueTokens)];
      if !AcquireGranted(w.acquire) then
        Execution(Failed(HttpError(503, QueueUnavailableDetail)), asked, now)
      else
        var f := Forward(cfg, req, caption, duration, w, now);
        var response := match f.outcome
          case Ok(audio) => Streamed(audio, MediaType, Disposition(req.trackType))
          case Fail(failure) => Failed(failure);
        Execution(response, asked + f.events + [Unload(AceStepHeaders(cfg.apiKey)), Release(sid)], f.clock)
  }

  /** POST /lego, for session id `sid`, starting at time `now`. */
  function Lego(cfg: Config, req: Request, w: World, sid: string, now: nat): Execution {
    if req.trackType !in AllowedTracks then
      Execution(Failed(HttpError(400, BadTrackDetail)), [], now)
    else
      var caption := EffectiveCaption(req.caption, req.trackType);
      var g := Guarded(cfg, req, caption, w, sid, now);
      Execution(g.response, [CreateTemp(TempSuffix(req.filename), req.audio)] + g.events + [Unlink], g.clock)
  }

  /** The request gets as far as the polling loop. */
  predicate ReachesPolling(req: Request, w: World) {
    && req.trackType in AllowedTracks
    && w.probe.Some?
    && AcquireGranted(w.acquire)
    && LoadStep(w.load).Ok?
    && SubmitStep(w.submit).Ok?
  }

  /** The guarded steps: a load first, then the submission of the form built
      from the request, every call carrying the backend headers. */
  lemma ForwardEvents(cfg: Config, req: Request, caption: string, duration: real, w: World, now: nat)
    ensures var f := Forward(cfg, req, caption, duration, w, now);
            var h := AceStepHeaders(cfg.apiKey);
            && LoadsFirst(f.events, h)
            && (LoadStep(w.load).Ok? ==> |f.events| >= 2)
            && (|f.events| >= 2 ==> f.events[1] == Submit(h, SubmitForm(req.trackType, caption, req.bpm,
                                                                        req.keyScale, duration, req.batchSize), req.audio))
            && (forall i :: 0 <= i < |f.events| ==> f.events[i].headers == h)
  {
    var h := AceStepHeaders(cfg.apiKey);
    if LoadStep(w.load).Ok? && SubmitStep(w.submit).Ok? {
      var taskId := SubmitStep(w.submit).value;
      PollLoopShape(h, taskId, w.polls, 0, now, now + GenerationTimeout);
    }
  }

  /** After the submission come only status queries for the task id the
      backend assigned, and at most one download, which is the last event. */
  lemma ForwardQueriesTask(cfg: Config, req: Request, caption: string, duration: real, w: World, now: nat)
    ensures var f := Forward(cfg, req, caption, duration, w, now);
            var h := AceStepHeaders(cfg.apiKey);
            && (SubmitStep(w.submit).Fail? ==> |f.events| <= 2)
            && (SubmitStep(w.submit).Ok? ==>
                  forall i :: 2 <= i < |f.events| ==>
                    f.events[i] == Poll(h, SubmitStep(w.submit).value)
                    || (i == |f.events| - 1 && f.events[i].Fetch?))
  {
    var f := Forward(cfg, req, caption, duration, w, now);
    var h := AceStepHeaders(cfg.apiKey);
    if LoadStep(w.load).Ok? && SubmitStep(w.submit).Ok? {
      var taskId := SubmitStep(w.submit).value;
      var p := PollLoop(h, taskId, w.polls, 0, now, now + GenerationTimeout);
      PollLoopShape(h, taskId, w.polls, 0, now, now + GenerationTimeout);
      var form := SubmitForm(req.trackType, caption, req.bpm, req.keyScale, duration, req.batchSize);
      var polled := [Load(h), Submit(h, form, req.audio)] + p.events;
      assert f.events == polled || f.events == polled + [Fetch(h, f.events[|f.events| - 1].url)];
      forall i | 2 <= i < |f.events|
        ensures f.events[i] == Poll(h, taskId) || (i == |f.events| - 1 && f.events[i].Fetch?)
      {
        if i < |polled| {
          assert f.events[i] == p.events[i - 2];
        }
      }
    }
  }

  /** The guarded steps fail only with an upstream failure (502), a timeout
      (504) or an unexpected exception, and with 504 exactly when every query
      within the timeout is answered "pending". */
  lemma ForwardOutcome(cfg: Config, req: Request, caption: string, duration: real, w: World, now: nat)
    ensures var f := Forward(cfg, req, caption, duration, w, now);
            && (f.outcome.Fail? ==> PollFailure(f.outcome.failure))
            && (f.outcome == Fail(HttpError(504, TimedOutDetail)) <==>
                  LoadStep(w.load).Ok? && SubmitStep(w.submit).Ok? && AllPending(w.polls, 0, PollCount))
            && now <= f.clock <= now + GenerationTimeout
  {
    var h := AceStepHeaders(cfg.apiKey);
    if LoadStep(w.load).Ok? && SubmitStep(w.submit).Ok? {
      var taskId := SubmitStep(w.submit).value;
      var deadline := now + GenerationTimeout;
      PollLoopShape(h, taskId, w.polls, 0, now, deadline);
      PollTimesOutIff(h, taskId, w.polls, 0, now, deadline);
      assert Budget(now, deadline) == PollCount;
    }
  }

  /** The outer `try` body's events, path by path. */
  lemma GuardedEvents(cfg: Config, req: Request, caption: string, w: World, sid: string, now: nat)
    ensures var g := Guarded(cfg, req, caption, w, sid, now);
            var acquire := Acquire(sid, cfg.queueTokens);
            && (w.probe.None? ==> g.events == [Probe])
            && (w.probe.Some? && !AcquireGranted(w.acquire) ==> g.events == [Probe, acquire])
            && (w.probe.Some? && AcquireGranted(w.acquire) ==>
                  g.events == [Probe, acquire] + Forward(cfg, req, caption, w.probe.value, w, now).events
                              + [Unload(AceStepHeaders(cfg.apiKey)), Release(sid)])
  {
  }

  /** A request with an allowed track type writes the temporary file, runs
      the outer `try` body with the effective caption, and removes the file. */
  lemma LegoUnfold(cfg: Config, req: Request, w: World, sid: string, now: nat)
    requires req.trackType in AllowedTracks
    ensures var g := Guarded(cfg, req, EffectiveCaption(req.caption, req.trackType), w, sid, now);
            Lego(cfg, req, w, sid, now)
              == Execution(g.response, [CreateTemp(TempSuffix(req.filename), req.audio)] + g.events + [Unlink], g.clock)
  {
  }

  /** Once the token is granted, the events are the temporary file, the
      probe and the token request, the guarded calls, then unload, release
      and the removal of the file. */
  lemma GrantedEvents(cfg: Config, req: Request, w: World, sid: string, now: nat)
    requires req.trackType in AllowedTracks && w.probe.Some? && AcquireGranted(w.acquire)
    ensures Lego(cfg, req, w, sid, now).events
            == [CreateTemp(TempSuffix(req.filename), req.audio), Probe, Acquire(sid, cfg.queueTokens)]
               + Forward(cfg, req, EffectiveCaption(req.caption, req.trackType), w.probe.value, w, now).events
               + [Unload(AceStepHeaders(cfg.apiKey)), Release(sid), Unlink]
  {
    var temp := CreateTemp(TempSuffix(req.filename), req.audio);
    var caption := EffectiveCaption(req.caption, req.trackType);
    var acquire := Acquire(sid, cfg.queueTokens);
    var h := AceStepHeaders(cfg.apiKey);
    var fe := Forward(cfg, req, caption, w.probe.value, w, now).events;
    LegoUnfold(cfg, req, w, sid, now);
    GuardedEvents(cfg, req, caption, w, sid, now);
    Regroup(temp, acquire, fe, Unload(h), Release(sid));
  }

  /** Regrouping of a granted trace, kept apart so the solver reasons about
      plain sequences rather than unfolded workflow terms. */
  lemma Regroup(temp: Event, acquire: Event, fe: seq<Event>, unload: Event, release: Event)
    ensures [temp] + ([Probe, acquire] + fe + [unload, release]) + [Unlink]
            == [temp, Probe, acquire] + fe + [unload, release, Unlink]
  {
  }

  /** A track type outside the allowed set is answered 400 before anything
      else happens: no temporary file, no probe, no outbound call. Any other
      request starts by writing the temporary file. */
  lemma ValidationFirst(cfg: Config, req: Request, w: World, sid: string, now: nat)
    ensures var x := Lego(cfg, req, w, sid, now);
            && (req.trackType !in AllowedTracks <==> x.events == [])
            && (req.trackType !in AllowedTracks ==> x.response == Failed(HttpError(400, BadTrackDetail)))
            && (x.events != [] ==> x.events[0] == CreateTemp(TempSuffix(req.filename), req.audio))
  {
  }

  /** When the duration cannot be probed the answer is 400, nothing is
      acquired, loaded or unloaded, and the temporary file is still removed. */
  lemma ProbeFailureCleansUp(cfg: Config, req: Request, w: World, sid: string, now: nat)
    requires req.trackType in AllowedTracks && w.probe.None?
    ensures var x := Lego(cfg, req, w, sid, now);
            && x.response == Failed(HttpError(400, NoDurationDetail))
            && x.events == [CreateTemp(TempSuffix(req.filename), req.audio), Probe, Unlink]
  {
    LegoUnfold(cfg, req, w, sid, now);
    GuardedEvents(cfg, req, EffectiveCaption(req.caption, req.trackType), w, sid, now);
    Framed(CreateTemp(TempSuffix(req.filename), req.audio), [Probe]);
  }

  /** A short trace framed by the temporary file and its removal, as a
      literal sequence; kept apart for solver cost. */
  lemma Framed(temp: Event, g: seq<Event>)
    ensures |g| == 1 ==> [temp] + g + [Unlink] == [temp, g[0], Unlink]
    ensures |g| == 2 ==> [temp] + g + [Unlink] == [temp, g[0], g[1], Unlink]
  {
  }

  /** A refused or failed token request is answered 503; nothing is loaded,
      submitted, polled, fetched, unloaded or released. */
  lemma RefusalCompensatesNothing(cfg: Config, req: Request, w: World, sid: string, now: nat)
    requires req.trackType in AllowedTracks && w.probe.Some? && !AcquireGranted(w.acquire)
    ensures var x := Lego(cfg, req, w, sid, now);
            && x.response == Failed(HttpError(503, QueueUnavailableDetail))
            && x.events == [CreateTemp(TempSuffix(req.filename), req.audio), Probe,
                            Acquire(sid, cfg.queueTokens), Unlink]
  {
    LegoUnfold(cfg, req, w, sid, now);
    GuardedEvents(cfg, req, EffectiveCaption(req.caption, req.trackType), w, sid, now);
    Framed(CreateTemp(TempSuffix(req.filename), req.audio), [Probe, Acquire(sid, cfg.queueTokens)]);
  }

  /** Once the token is granted, whatever the load, submit, poll and download
      steps do (succeed, fail, or raise), the model is loaded first and the
      request ends with one unload, one release of the same session, and the
      removal of the temporary file, in that order; in between there are
      only backend calls. */
  lemma GrantedCompensatesOnce(cfg: Config, req: Request, w: World, sid: string, now: nat)
    requires req.trackType in AllowedTracks && w.probe.Some? && AcquireGranted(w.acquire)
    ensures var e := Lego(cfg, req, w, sid, now).events;
            var h := AceStepHeaders(cfg.apiKey);
            && |e| >= 7
            && e[..4] == [CreateTemp(TempSuffix(req.filename), req.audio), Probe,
                          Acquire(sid, cfg.queueTokens), Load(h)]
            && e[|e| - 3..] == [Unload(h), Release(sid), Unlink]
            && (forall i :: 3 <= i < |e| - 3 ==> e[i].IsForwardCall())
  {
    var caption := EffectiveCaption(req.caption, req.trackType);
    ForwardEvents(cfg, req, caption, w.probe.value, w, now);
    GrantedEvents(cfg, req, w, sid, now);
    FramedShape(Lego(cfg, req, w, sid, now).events, CreateTemp(TempSuffix(req.filename), req.audio),
                Acquire(sid, cfg.queueTokens), Forward(cfg, req, caption, w.probe.value, w, now).events,
                AceStepHeaders(cfg.apiKey), sid);
  }

  /** The guarded calls: a load first, then only other backend calls. */
  predicate LoadsFirst(fe: seq<Event>, h: Headers) {
    && fe != [] && fe[0] == Load(h)
    && (forall i :: 0 <= i < |fe| ==> fe[i].IsForwardCall())
    && (forall i :: 1 <= i < |fe| ==> !fe[i].Load?)
  }

  lemma FramedShape(e: seq<Event>, temp: Event, acquire: Event, fe: seq<Event>, h: Headers, sid: string)
    requires e == [temp, Probe, acquire] + fe + [Unload(h), Release(sid), Unlink]
    requires LoadsFirst(fe, h)
    ensures |e| == |fe| + 6 && forall i :: 0 <= i < |fe| ==> e[i + 3] == fe[i]
    ensures |e| >= 7 && e[..4] == [temp, Probe, acquire, Load(h)]
    ensures e[|e| - 3..] == [Unload(h), Release(sid), Unlink]
    ensures forall i :: 3 <= i < |e| - 3 ==> e[i].IsForwardCall()
  {
    forall i | 0 <= i < |fe| ensures e[i + 3] == fe[i] {
      assert e[i + 3] == ([temp, Probe, acquire] + fe)[i + 3];
    }
    assert e[..4] == [temp, Probe, acquire, fe[0]];
    assert e[|e| - 3..] == [Unload(h), Release(sid), Unlink];
    forall i | 3 <= i < |e| - 3 ensures e[i].IsForwardCall() {
      assert e[i] == fe[i - 3];
    }
  }

  /** No token, model or temporary file is left behind in `e`, and the file's
      removal is the last event. */
  predicate NoLeak(e: seq<Event>, h: Headers, sid: string, tokens: int, temp: Event) {
    && Count(e, Release(sid)) <= Count(e, Acquire(sid, tokens)) <= 1
    && Count(e, Unload(h)) == Count(e, Release(sid))
    && Count(e, Load(h)) <= Count(e, Unload(h))
    && Count(e, Unlink) == Count(e, temp)
    && (e != [] ==> e[|e| - 1] == Unlink)
  }

  /** The request obtains a GPU token. */
  predicate Granted(req: Request, w: World) {
    req.trackType in AllowedTracks && w.probe.Some? && AcquireGranted(w.acquire)
  }

  /** On every path: the token is asked for at most once and released, for
      the same session, exactly when it was granted; the model is unloaded
      exactly when the token is released and never loaded more often than
      unloaded; the temporary file is removed exactly when it was written,
      as the last event. */
  lemma NeverLeaks(cfg: Config, req: Request, w: World, sid: string, now: nat)
    ensures var e := Lego(cfg, req, w, sid, now).events;
            var h := AceStepHeaders(cfg.apiKey);
            var acquire := Acquire(sid, cfg.queueTokens);
            && Count(e, Release(sid)) <= Count(e, acquire) <= 1
            && Count(e, Release(sid)) == (if Granted(req, w) then 1 else 0)
            && Count(e, Unload(h)) == Count(e, Release(sid))
            && Count(e, Load(h)) <= Count(e, Unload(h))
            && Count(e, Unlink) == Count(e, CreateTemp(TempSuffix(req.filename), req.audio))
            && Count(e, Unlink) == (if req.trackType in AllowedTracks then 1 else 0)
            && (e != [] ==> e[|e| - 1] == Unlink)
  {
    var e := Lego(cfg, req, w, sid, now).events;
    var h := AceStepHeaders(cfg.apiKey);
    var temp := CreateTemp(TempSuffix(req.filename), req.audio);
    var acquire := Acquire(sid, cfg.queueTokens);
    if req.trackType !in AllowedTracks {
      ValidationFirst(cfg, req, w, sid, now);
    } else if w.probe.None? {
      ProbeFailureCleansUp(cfg, req, w, sid, now);
      ShortNoLeak(e, h, sid, cfg.queueTokens, temp, [temp, Probe, Unlink]);
    } else if !AcquireGranted(w.acquire) {
      RefusalCompensatesNothing(cfg, req, w, sid, now);
      ShortNoLeak(e, h, sid, cfg.queueTokens, temp, [temp, Probe, acquire, Unlink]);
    } else {
      var caption := EffectiveCaption(req.caption, req.trackType);
      ForwardEvents(cfg, req, caption, w.probe.value, w, now);
      GrantedEvents(cfg, req, w, sid, now);
      FramedNoLeak(e, temp, sid, cfg.queueTokens, Forward(cfg, req, caption, w.probe.value, w, now).events, h);
    }
  }

  /** The events of a path that stops before the model is loaded. */
  lemma ShortNoLeak(e: seq<Event>, h: Headers, sid: string, tokens: int, temp: Event, path: seq<Event>)
    requires temp.CreateTemp?
    requires path == [temp, Probe, Unlink] || path == [temp, Probe, Acquire(sid, tokens), Unlink]
    requires e == path
    ensures NoLeak(e, h, sid, tokens, temp) && Count(e, Unlink) == 1 && Count(e, Release(sid)) == 0
  {
  }

  /** The events of a path on which the token was granted. */
  lemma FramedNoLeak(e: seq<Event>, temp: Event, sid: string, tokens: int, fe: seq<Event>, h: Headers)
    requires temp.CreateTemp?
    requires e == [temp, Probe, Acquire(sid, tokens)] + fe + [Unload(h), Release(sid), Unlink]
    requires LoadsFirst(fe, h)
    ensures NoLeak(e, h, sid, tokens, temp) && Count(e, Unlink) == 1 && Count(e, Release(sid)) == 1
  {
    ForwardCounts(fe, h, sid, tokens, temp);
    assert e == [temp, Probe, Acquire(sid, tokens)] + fe + [Unload(h), Release(sid), Unlink];
  }

  /** The guarded calls hold one load and none of the events NeverLeaks counts. */
  lemma ForwardCounts(fe: seq<Event>, h: Headers, sid: string, tokens: int, temp: Event)
    requires temp.CreateTemp?
    requires LoadsFirst(fe, h)
    ensures Count(fe, Load(h)) == 1
    ensures Count(fe, Release(sid)) == 0 && Count(fe, Acquire(sid, tokens)) == 0
    ensures Count(fe, Unload(h)) == 0 && Count(fe, Unlink) == 0 && Count(fe, temp) == 0
  {
    assert fe == [Load(h)] + fe[1..];
    assert Load(h) !in fe[1..] by {
      forall i | 0 <= i < |fe[1..]| ensures fe[1..][i] != Load(h) {
        assert fe[1..][i] == fe[i + 1];
      }
    }
    assert Release(sid) !in fe && Acquire(sid, tokens) !in fe && Unload(h) !in fe
           && Unlink !in fe && temp !in fe;
  }

  /** The response and final time of a request whose token was granted are
      those of the guarded steps. */
  lemma GrantedResponse(cfg: Config, req: Request, w: World, sid: string, now: nat)
    requires Granted(req, w)
    ensures var x := Lego(cfg, req, w, sid, now);
            var f := Forward(cfg, req, EffectiveCaption(req.caption, req.trackType), w.probe.value, w, now);
            && (f.outcome.Ok? ==> x.response == Streamed(f.outcome.value, MediaType, Disposition(req.trackType)))
            && (f.outcome.Fail? ==> x.response == Failed(f.outcome.failure))
            && x.clock == f.clock
  {
    LegoUnfold(cfg, req, w, sid, now);
  }

  /** Once the task is submitted, the first reply that is not "pending"
      decides the guarded steps: how many queries are made, how long is
      slept, and whether the file is fetched and from where. */
  lemma ForwardStopsAt(cfg: Config, req: Request, caption: string, duration: real, w: World, now: nat, j: nat)
    requires LoadStep(w.load).Ok? && SubmitStep(w.submit).Ok?
    requires FirstTerminal(w.polls, 0, PollCount, j)
    ensures var f := Forward(cfg, req, caption, duration, w, now);
            var h := AceStepHeaders(cfg.apiKey);
            && f.clock == now + j * PollInterval
            && match Classify(w.polls(j))
               case Aborted(failure) => f.outcome == Fail(failure) && |f.events| == j + 3
               case Finished(data) =>
                 && (FirstFilePath(data).Fail? ==> f.outcome == Fail(Unexpected) && |f.events| == j + 3)
                 && (FirstFilePath(data).Ok? ==>
                       && f.outcome == DownloadStep(w.download) && |f.events| == j + 4
                       && f.events[j + 3] == Fetch(h, cfg.acestepUrl + FirstFilePath(data).value))
               case StillPending => false
  {
    var h := AceStepHeaders(cfg.apiKey);
    var deadline := now + GenerationTimeout;
    assert Budget(now, deadline) == PollCount;
    PollStopsAtFirstTerminal(h, SubmitStep(w.submit).value, w.polls, 0, now, deadline, j);
  }

  /** The request delivers audio: it reaches the polling loop, the `j`-th
      query is the first that is not "pending" and reports success with a
      file path, and the download of that file answers 200. */
  predicate DeliversAt(req: Request, w: World, j: nat) {
    && ReachesPolling(req, w)
    && FirstTerminal(w.polls, 0, PollCount, j)
    && Classify(w.polls(j)).Finished?
    && FirstFilePath(Classify(w.polls(j)).data).Ok?
    && DownloadStep(w.download).Ok?
  }

  /** A delivered request is answered 200 with the downloaded bytes
      unchanged, as `audio/mpeg`, named after the track type, after `j`
      sleeps; the file is fetched from the backend's base URL followed by the
      reported path, and is followed only by unload, release and removal of
      the temporary file. */
  lemma SuccessResponse(cfg: Config, req: Request, w: World, sid: string, now: nat, j: nat)
    requires DeliversAt(req, w, j)
    ensures var x := Lego(cfg, req, w, sid, now);
            var path := FirstFilePath(Classify(w.polls(j)).data).value;
            && x.response == Streamed(w.download.reply.content, "audio/mpeg",
                                      "attachment; filename=\"" + req.trackType + ".mp3\"")
            && x.clock == now + j * PollInterval
            && |x.events| == j + 10
            && x.events[j + 6] == Fetch(AceStepHeaders(cfg.apiKey), cfg.acestepUrl + path)
  {
    var caption := EffectiveCaption(req.caption, req.trackType);
    var duration := w.probe.value;
    ForwardStopsAt(cfg, req, caption, duration, w, now, j);
    ForwardEvents(cfg, req, caption, duration, w, now);
    GrantedResponse(cfg, req, w, sid, now);
    GrantedEvents(cfg, req, w, sid, now);
    FramedShape(Lego(cfg, req, w, sid, now).events, CreateTemp(TempSuffix(req.filename), req.audio),
                Acquire(sid, cfg.queueTokens), Forward(cfg, req, caption, duration, w, now).events,
                AceStepHeaders(cfg.apiKey), sid);
  }

  /** Guarded steps that end with audio got past every step: a query
      finished with a file path and the download answered 200. */
  lemma ForwardDelivers(cfg: Config, req: Request, caption: string, duration: real, w: World, now: nat)
    requires Forward(cfg, req, caption, duration, w, now).outcome.Ok?
    ensures LoadStep(w.load).Ok? && SubmitStep(w.submit).Ok?
    ensures exists j: nat :: && FirstTerminal(w.polls, 0, PollCount, j)
                             && Classify(w.polls(j)).Finished?
                             && FirstFilePath(Classify(w.polls(j)).data).Ok?
                             && DownloadStep(w.download).Ok?
  {
    var h := AceStepHeaders(cfg.apiKey);
    var taskId := SubmitStep(w.submit).value;
    var deadline := now + GenerationTimeout;
    assert PollLoop(h, taskId, w.polls, 0, now, deadline).outcome.Ok?;
    PollEndsAtTerminal(h, taskId, w.polls, 0, now, deadline);
    assert Budget(now, deadline) == PollCount;
    var j: nat :| FirstTerminal(w.polls, 0, PollCount, j);
    ForwardStopsAt(cfg, req, caption, duration, w, now, j);
  }

  /** Audio is returned only to a request that delivers it. */
  lemma StreamedOnlyIfDelivered(cfg: Config, req: Request, w: World, sid: string, now: nat)
    requires Lego(cfg, req, w, sid, now).response.Streamed?
    ensures exists j: nat :: DeliversAt(req, w, j)
  {
    StatusCodes(cfg, req, w, sid, now);
    assert Granted(req, w);
    var caption := EffectiveCaption(req.caption, req.trackType);
    GrantedResponse(cfg, req, w, sid, now);
    ForwardDelivers(cfg, req, caption, w.probe.value, w, now);
    var j: nat :| && FirstTerminal(w.polls, 0, PollCount, j)
                  && Classify(w.polls(j)).Finished?
                  && FirstFilePath(Classify(w.polls(j)).data).Ok?
                  && DownloadStep(w.download).Ok?;
    assert DeliversAt(req, w, j);
  }

  /** The status codes of `/lego`: 400 for a bad track type or an unreadable
      duration, 503 when the queue refuses, 504 exactly when every query
      within the timeout is answered "pending", and otherwise 200, 502 or
      500. */
  lemma StatusCodes(cfg: Config, req: Request, w: World, sid: string, now: nat)
    ensures var r := Lego(cfg, req, w, sid, now).response;
            && StatusCode(r) in {200, 400, 500, 502, 503, 504}
            && (StatusCode(r) == 400 <==> req.trackType !in AllowedTracks || w.probe.None?)
            && (StatusCode(r) == 503 <==> req.trackType in AllowedTracks && w.probe.Some? && !AcquireGranted(w.acquire))
            && (StatusCode(r) == 504 <==> ReachesPolling(req, w) && AllPending(w.polls, 0, PollCount))
            && (StatusCode(r) == 504 ==> r == Failed(HttpError(504, TimedOutDetail)))
            && (StatusCode(r) == 200 <==> r.Streamed?)
  {
    ValidationFirst(cfg, req, w, sid, now);
    if req.trackType in AllowedTracks {
      if w.probe.None? {
        ProbeFailureCleansUp(cfg, req, w, sid, now);
      } else if !AcquireGranted(w.acquire) {
        RefusalCompensatesNothing(cfg, req, w, sid, now);
      } else {
        GrantedResponse(cfg, req, w, sid, now);
        ForwardOutcome(cfg, req, EffectiveCaption(req.caption, req.trackType), w.probe.value, w, now);
      }
    }
  }

  /** A task that the backend reports failed (status 2) at the first
      non-pending query is answered 502 quoting the backend's error, after
      `j` sleeps, with the model unloaded and the token released. */
  lemma GenerationFailureIs502(cfg: Config, req: Request, w: World, sid: string, now: nat, j: nat, d: PollData)
    requires ReachesPolling(req, w) && FirstTerminal(w.polls, 0, PollCount, j)
    requires w.polls(j) == Returns(d) && d.status == 2
    ensures var x := Lego(cfg, req, w, sid, now);
            && x.response == Failed(HttpError(502, "ACE-Step generation failed: " + ErrorText(d.error)))
            && x.clock == now + j * PollInterval
            && |x.events| == j + 9
            && x.events[|x.events| - 3..] == [Unload(AceStepHeaders(cfg.apiKey)), Release(sid), Unlink]
  {
    var caption := EffectiveCaption(req.caption, req.trackType);
    var duration := w.probe.value;
    ForwardStopsAt(cfg, req, caption, duration, w, now, j);
    ForwardEvents(cfg, req, caption, duration, w, now);
    GrantedResponse(cfg, req, w, sid, now);
    GrantedEvents(cfg, req, w, sid, now);
    FramedShape(Lego(cfg, req, w, sid, now).events, CreateTemp(TempSuffix(req.filename), req.audio),
                Acquire(sid, cfg.queueTokens), Forward(cfg, req, caption, duration, w, now).events,
                AceStepHeaders(cfg.apiKey), sid);
  }

  /** A load answered with another status than 200 is a 502 quoting the
      backend; nothing is submitted, and the model is still unloaded and
      the token released. */
  lemma LoadRejected(cfg: Config, req: Request, w: World, sid: string, now: nat, code: int, text: string)
    requires Granted(req, w) && w.load == Returns(TextReply(code, text)) && code != 200
    ensures var x := Lego(cfg, req, w, sid, now);
            var h := AceStepHeaders(cfg.apiKey);
            && x.response == Failed(HttpError(502, "ACE-Step /v1/load failed: " + text))
            && x.events == [CreateTemp(TempSuffix(req.filename), req.audio), Probe, Acquire(sid, cfg.queueTokens),
                            Load(h), Unload(h), Release(sid), Unlink]
            && x.clock == now
  {
    var caption := EffectiveCaption(req.caption, req.trackType);
    ForwardRejected(cfg, req, caption, w.probe.value, w, now);
    GrantedResponse(cfg, req, w, sid, now);
    GrantedEvents(cfg, req, w, sid, now);
    var h := AceStepHeaders(cfg.apiKey);
    Spliced(Lego(cfg, req, w, sid, now).events, CreateTemp(TempSuffix(req.filename), req.audio),
            Acquire(sid, cfg.queueTokens), [Load(h)], Unload(h), Release(sid));
  }

  /** A submission answered with another status than 200 is a 502 quoting
      the backend; nothing is polled, and the model is still unloaded and
      the token released. */
  lemma SubmitRejected(cfg: Config, req: Request, w: World, sid: string, now: nat, reply: SubmitReply)
    requires Granted(req, w) && LoadStep(w.load).Ok? && w.submit == Returns(reply) && reply.code != 200
    ensures var x := Lego(cfg, req, w, sid, now);
            var h := AceStepHeaders(cfg.apiKey);
            var form := SubmitForm(req.trackType, EffectiveCaption(req.caption, req.trackType), req.bpm,
                                   req.keyScale, w.probe.value, req.batchSize);
            && x.response == Failed(HttpError(502, "ACE-Step /release_task failed: " + reply.text))
            && x.events == [CreateTemp(TempSuffix(req.filename), req.audio), Probe, Acquire(sid, cfg.queueTokens),
                            Load(h), Submit(h, form, req.audio), Unload(h), Release(sid), Unlink]
            && x.clock == now
  {
    var caption := EffectiveCaption(req.caption, req.trackType);
    ForwardRejected(cfg, req, caption, w.probe.value, w, now);
    GrantedResponse(cfg, req, w, sid, now);
    GrantedEvents(cfg, req, w, sid, now);
    var h := AceStepHeaders(cfg.apiKey);
    var form := SubmitForm(req.trackType, caption, req.bpm, req.keyScale, w.probe.value, req.batchSize);
    Spliced(Lego(cfg, req, w, sid, now).events, CreateTemp(TempSuffix(req.filename), req.audio),
            Acquire(sid, cfg.queueTokens), [Load(h), Submit(h, form, req.audio)], Unload(h), Release(sid));
  }

  /** The guarded steps when the load or the submission is rejected. */
  lemma ForwardRejected(cfg: Config, req: Request, caption: string, duration: real, w: World, now: nat)
    ensures var f := Forward(cfg, req, caption, duration, w, now);
            var h := AceStepHeaders(cfg.apiKey);
            && (LoadStep(w.load).Fail? ==> f == Run(Fail(LoadStep(w.load).failure), [Load(h)], now))
            && (LoadStep(w.load).Ok? && SubmitStep(w.submit).Fail? ==>
                  f == Run(Fail(SubmitStep(w.submit).failure),
                           [Load(h), Submit(h, SubmitForm(req.trackType, caption, req.bpm, req.keyScale,
                                                          duration, req.batchSize), req.audio)], now))
  {
  }

  /** The events of a rejected inner step spliced into the granted frame;
      kept apart for solver cost. */
  lemma Spliced(e: seq<Event>, temp: Event, acquire: Event, fe: seq<Event>, unload: Event, release: Event)
    requires e == [temp, Probe, acquire] + fe + [unload, release, Unlink]
    ensures |fe| == 1 ==> e == [temp, Probe, acquire, fe[0], unload, release, Unlink]
    ensures |fe| == 2 ==> e == [temp, Probe, acquire, fe[0], fe[1], unload, release, Unlink]
  {
  }

  /** Once the model is loaded, the fifth event submits, with the backend
      headers, the uploaded bytes and the lego form built from the request's
      fields, the effective caption and the probed duration. */
  lemma SubmittedForm(cfg: Config, req: Request, w: World, sid: string, now: nat)
    requires Granted(req, w) && LoadStep(w.load).Ok?
    ensures var e := Lego(cfg, req, w, sid, now).events;
            && |e| >= 8
            && e[4] == Submit(AceStepHeaders(cfg.apiKey),
                              SubmitForm(req.trackType, EffectiveCaption(req.caption, req.trackType), req.bpm,
                                         req.keyScale, w.probe.value, req.batchSize),
                              req.audio)
  {
    var caption := EffectiveCaption(req.caption, req.trackType);
    var duration := w.probe.value;
    ForwardEvents(cfg, req, caption, duration, w, now);
    GrantedEvents(cfg, req, w, sid, now);
    FramedShape(Lego(cfg, req, w, sid, now).events, CreateTemp(TempSuffix(req.filename), req.audio),
                Acquire(sid, cfg.queueTokens), Forward(cfg, req, caption, duration, w, now).events,
                AceStepHeaders(cfg.apiKey), sid);
  }

  /** Every call to the backend (load, submit, status query, download,
      unload) carries the headers built from the configured API key. */
  lemma BackendCallsCarryHeaders(cfg: Config, req: Request, w: World, sid: string, now: nat)
    ensures var e := Lego(cfg, req, w, sid, now).events;
            forall i :: 0 <= i < |e| && e[i].CallsBackend() ==> e[i].headers == AceStepHeaders(cfg.apiKey)
  {
    var e := Lego(cfg, req, w, sid, now).events;
    var temp := CreateTemp(TempSuffix(req.filename), req.audio);
    ValidationFirst(cfg, req, w, sid, now);
    if req.trackType in AllowedTracks {
      if w.probe.None? {
        ProbeFailureCleansUp(cfg, req, w, sid, now);
        ShortHeaders(e, temp, Acquire(sid, cfg.queueTokens), AceStepHeaders(cfg.apiKey));
      } else if !AcquireGranted(w.acquire) {
        RefusalCompensatesNothing(cfg, req, w, sid, now);
        ShortHeaders(e, temp, Acquire(sid, cfg.queueTokens), AceStepHeaders(cfg.apiKey));
      } else {
        var caption := EffectiveCaption(req.caption, req.trackType);
        ForwardEvents(cfg, req, caption, w.probe.value, w, now);
        GrantedEvents(cfg, req, w, sid, now);
        FramedHeaders(Lego(cfg, req, w, sid, now).events, CreateTemp(TempSuffix(req.filename), req.audio),
                      Acquire(sid, cfg.queueTokens), Forward(cfg, req, caption, w.probe.value, w, now).events,
                      AceStepHeaders(cfg.apiKey), sid);
      }
    }
  }

  lemma ShortHeaders(e: seq<Event>, temp: Event, acquire: Event, h: Headers)
    requires temp.CreateTemp? && acquire.Acquire?
    requires e == [temp, Probe, Unlink] || e == [temp, Probe, acquire, Unlink]
    ensures forall i :: 0 <= i < |e| && e[i].CallsBackend() ==> e[i].headers == h
  {
  }

  lemma FramedHeaders(e: seq<Event>, temp: Event, acquire: Event, fe: seq<Event>, h: Headers, sid: string)
    requires temp.CreateTemp? && acquire.Acquire?
    requires e == [temp, Probe, acquire] + fe + [Unload(h), Release(sid), Unlink]
    requires forall i :: 0 <= i < |fe| ==> fe[i].IsForwardCall() && fe[i].headers == h
    ensures forall i :: 0 <= i < |e| && e[i].CallsBackend() ==> e[i].headers == h
  {
    forall i | 0 <= i < |e| && e[i].CallsBackend() ensures e[i].headers == h {
      if 3 <= i < |e| - 3 {
        assert e[i] == fe[i - 3];
      }
    }
  }

  /** The time slept between status queries totals at most
      `GenerationTimeout` seconds; the virtual clock counts only those sleeps. */
  lemma ElapsedWithinTimeout(cfg: Config, req: Request, w: World, sid: string, now: nat)
    ensures var x := Lego(cfg, req, w, sid, now);
            now <= x.clock <= now + GenerationTimeout
  {
    if Granted(req, w) {
      GrantedResponse(cfg, req, w, sid, now);
      ForwardOutcome(cfg, req, EffectiveCaption(req.caption, req.trackType), w.probe.value, w, now);
    }
  }

  /** What unload, release and the removal of the temporary file answer
      changes nothing: their outcomes are swallowed. */
  lemma CompensationOutcomesIgnored(cfg: Config, req: Request, w: World, sid: string, now: nat,
                                    unload: Call<int>, release: Call<int>, unlink: Call<int>)
    ensures Lego(cfg, req, w.(unload := unload, release := release, unlink := unlink), sid, now)
            == Lego(cfg, req, w, sid, now)
  {
    var w' := w.(unload := unload, release := release, unlink := unlink);
    if req.trackType in AllowedTracks {
      var caption := EffectiveCaption(req.caption, req.trackType);
      if w.probe.Some? {
        assert Forward(cfg, req, caption, w.probe.value, w', now) == Forward(cfg, req, caption, w.probe.value, w, now);
      }
      assert Guarded(cfg, req, caption, w', sid, now) == Guarded(cfg, req, caption, w, sid, now);
    }
  }
}
