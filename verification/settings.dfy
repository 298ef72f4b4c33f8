/** The wrapper's fixed settings and the small pure decisions it takes:
    track presets, the bearer header, the caption choice, the temporary file
    suffix, the submission form and the health summary. */
module Settings {
  import opened Types
  import Text

  const InferenceSteps := 50
  const DefaultBatch := 1
  /** Seconds slept between two status queries. */
  const PollInterval := 3
  /** Seconds after which a job that is still pending is given up. */
  const GenerationTimeout := 300

  /** The caption preset of each track type; its keys are the allowed types. */
  const TrackCaptions: map<string, string> := map[
    "vocals" := "soulful indie vocalist, warm, wordless melody, expressive, intimate",
    "backing_vocals" := "background vocals, close harmony, wordless, warm, following the lead vocal",
    "drums" := "live acoustic drum kit, tight kick and snare, brushed hi-hats, warm"
  ]

  const AllowedTracks: set<string> := TrackCaptions.Keys

  const BadTrackDetail := "track_type must be one of ['backing_vocals', 'drums', 'vocals']"
  const NoDurationDetail := "Could not determine audio duration \U{2014} is ffprobe installed?"
  const QueueUnavailableDetail := "GPU queue unavailable"
  const TimedOutDetail := "ACE-Step generation timed out"
  const DownloadFailedDetail := "Failed to download generated audio"
  const MediaType := "audio/mpeg"

  /** The headers sent on every backend call: a bearer credential when an API
      key is configured, nothing otherwise. */
  function AceStepHeaders(apiKey: string): (h: Headers)
    ensures |h| <= 1
    ensures "Authorization" in h <==> apiKey != ""
    ensures "Authorization" in h ==> h["Authorization"] == "Bearer " + apiKey
    ensures apiKey == "" ==> h == map[]
  {
    if apiKey != "" then map["Authorization" := "Bearer " + apiKey] else map[]
  }

  /** The caption sent to the backend: the caller's caption with surrounding
      whitespace removed, or the track's preset when that leaves nothing. */
  function EffectiveCaption(caption: string, trackType: string): (c: string)
    requires trackType in AllowedTracks
    ensures Text.IsBlank(caption) ==> c == TrackCaptions[trackType]
    ensures !Text.IsBlank(caption) ==> c == Text.Strip(caption) && c != ""
  {
    Text.StripSpec(caption);
    var stripped := Text.Strip(caption);
    if stripped != "" then stripped else TrackCaptions[trackType]
  }

  /** A caption that is not blank is sent trimmed: it starts and ends with a
      non-whitespace character and sits in the caller's text between two runs
      of whitespace. */
  lemma CaptionTrimmed(caption: string, trackType: string)
    requires trackType in AllowedTracks && !Text.IsBlank(caption)
    ensures var c := EffectiveCaption(caption, trackType);
            && !Text.IsSpace(c[0]) && !Text.IsSpace(c[|c| - 1])
            && exists k :: 0 <= k <= |caption| - |c| && c == caption[k..k + |c|]
                           && Text.BlankBetween(caption, 0, k) && Text.BlankBetween(caption, k + |c|, |caption|)
  {
    Text.StripSpec(caption);
  }

  /** The suffix of the temporary input file: that of the uploaded file name
      (or of "audio.wav" when there is none), ".wav" when it has none. */
  function TempSuffix(filename: string): string {
    var suffix := Text.PathSuffix(if filename == "" then "audio.wav" else filename);
    if suffix == "" then ".wav" else suffix
  }

  /** A nameless upload is stored as a ".wav" file. */
  lemma DefaultSuffix()
    ensures TempSuffix("") == ".wav"
  {
    var p := "audio.wav";
    assert Text.LastIndexOf(p, '/') == -1 by {
      assert forall j :: 0 <= j < |p| ==> p[j] != '/';
    }
    assert Text.PathName(p) == p;
    assert Text.LastIndexOf(p, '.') == 5 by {
      assert p[5] == '.' && p[6] != '.' && p[7] != '.' && p[8] != '.';
    }
  }

  /** The temporary file always gets a proper suffix: the upload's own when
      it has one, ".wav" otherwise. */
  lemma TempSuffixSpec(filename: string)
    ensures var r := TempSuffix(filename);
            |r| >= 2 && r[0] == '.' && '.' !in r[1..] && '/' !in r
    ensures filename == "" ==> TempSuffix(filename) == ".wav"
    ensures filename != "" && Text.PathSuffix(filename) != "" ==> TempSuffix(filename) == Text.PathSuffix(filename)
    ensures filename != "" && Text.PathSuffix(filename) == "" ==> TempSuffix(filename) == ".wav"
  {
    if filename == "" {
      DefaultSuffix();
      assert ".wav"[1..] == "wav";
    } else {
      Text.PathSuffixSpec(filename);
      if Text.PathSuffix(filename) == "" {
        assert ".wav"[1..] == "wav";
      }
    }
  }

  /** The form fields that every submission carries. */
  const FixedFormKeys: set<string> := {
    "task_type", "track_name", "caption", "bpm", "time_signature", "inference_steps",
    "thinking", "use_cot_caption", "repainting_start", "repainting_end", "batch_size",
    "audio_duration"
  }

  /** The form of a lego submission; `key_scale` is added only when given. */
  function SubmitForm(trackName: string, caption: string, bpm: int, keyScale: string,
                      duration: real, batchSize: int): Form
  {
    var fixed := map[
      "task_type" := Text("lego"),
      "track_name" := Text(trackName),
      "caption" := Text(caption),
      "bpm" := Decimal(bpm),
      "time_signature" := Text("4"),
      "inference_steps" := Decimal(InferenceSteps),
      "thinking" := Text("false"),
      "use_cot_caption" := Text("false"),
      "repainting_start" := Text("0.0"),
      "repainting_end" := Text("-1"),
      "batch_size" := Decimal(batchSize),
      "audio_duration" := Float(duration)
    ];
    if keyScale != "" then fixed["key_scale" := Text(keyScale)] else fixed
  }

  /** The form holds the fixed fields, plus `key_scale` exactly when a key
      was given. */
  lemma SubmitFormKeys(trackName: string, caption: string, bpm: int, keyScale: string,
                       duration: real, batchSize: int)
    ensures SubmitForm(trackName, caption, bpm, keyScale, duration, batchSize).Keys
            == FixedFormKeys + (if keyScale == "" then {} else {"key_scale"})
  {
  }

  /** The caller's values land under their own keys. */
  lemma SubmitFormValues(trackName: string, caption: string, bpm: int, keyScale: string,
                         duration: real, batchSize: int)
    ensures var f := SubmitForm(trackName, caption, bpm, keyScale, duration, batchSize);
            && f["track_name"] == Text(trackName) && f["caption"] == Text(caption)
            && f["bpm"] == Decimal(bpm) && f["batch_size"] == Decimal(batchSize)
            && f["audio_duration"] == Float(duration)
            && (keyScale != "" ==> f["key_scale"] == Text(keyScale))
  {
  }

  /** The other fields hold the wrapper's constants: a lego task in 4/4 with
      50 inference steps, no reasoning, repainting the whole clip. */
  lemma SubmitFormConstants(trackName: string, caption: string, bpm: int, keyScale: string,
                            duration: real, batchSize: int)
    ensures var f := SubmitForm(trackName, caption, bpm, keyScale, duration, batchSize);
            && f["task_type"] == Text("lego") && f["time_signature"] == Text("4")
            && f["inference_steps"] == Decimal(50)
            && f["thinking"] == Text("false") && f["use_cot_caption"] == Text("false")
            && f["repainting_start"] == Text("0.0") && f["repainting_end"] == Text("-1")
  {
  }

  /** The form's caption is the caller's caption stripped of surrounding
      whitespace, or the track's preset when that leaves nothing. */
  lemma FormCaption(req: Request, duration: real)
    requires req.trackType in AllowedTracks
    ensures SubmitForm(req.trackType, EffectiveCaption(req.caption, req.trackType), req.bpm, req.keyScale,
                       duration, req.batchSize)["caption"]
            == Text(if Text.IsBlank(req.caption) then TrackCaptions[req.trackType] else Text.Strip(req.caption))
  {
    SubmitFormValues(req.trackType, EffectiveCaption(req.caption, req.trackType), req.bpm, req.keyScale,
                     duration, req.batchSize);
  }

  /** The `Content-Disposition` header of a successful response. */
  function Disposition(trackType: string): string {
    "attachment; filename=\"" + trackType + ".mp3\""
  }

  datatype HealthReport = HealthReport(wrapper: string, acestep: string, acestepUrl: string)

  /** GET /health: the wrapper always reports itself ok; the backend is "ok"
      only when its own health endpoint answers 200, and "unreachable" when it
      answers anything else or the request raises. */
  function Health(cfg: Config, probe: Call<int>): (r: HealthReport)
    ensures r.wrapper == "ok" && r.acestepUrl == cfg.acestepUrl
    ensures r.acestep == "ok" <==> probe == Returns(200)
    ensures r.acestep != "ok" ==> r.acestep == "unreachable"
  {
    var aceOk := match probe
      case Returns(code) => code == 200
      case Raises => false;
    HealthReport("ok", if aceOk then "ok" else "unreachable", cfg.acestepUrl)
  }
}
