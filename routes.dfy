/**
  The backend's HTTP routes (`routes.py`) over the two lazily created module
  globals, the audio capture and the transcriber. The transcriber itself is a
  parameter of the model: a function from its configuration and the samples
  to a transcription result.
*/
module Routes {
  import opened Wrappers
  import opened Capture

  /** `WhisperConfig`. */
  datatype WhisperConfig = WhisperConfig(modelName: string, language: Option<string>, task: string)

  const DefaultConfig: WhisperConfig := WhisperConfig("mlx-community/whisper-small-mlx", Some("tr"), "transcribe")

  /** What the transcriber returns; `duration` is in seconds. */
  datatype TranscriptionResult = TranscriptionResult(text: string, language: Option<string>, duration: Option<real>)

  /** The body of a `/status` or `/start` response. */
  datatype StatusResponse = StatusResponse(status: string, isRecording: bool)

  /** The body of a `/stop` response. */
  datatype TranscriptionResponse = TranscriptionResponse(text: string, language: Option<string>, duration: Option<real>)

  /** The body of a `/config` request. */
  datatype ConfigRequest = ConfigRequest(model: Option<string>, language: Option<string>)

  /** An `HTTPException`. */
  datatype HttpError = HttpError(statusCode: int, detail: string)

  datatype Result<+R> = Ok(value: R) | Err(error: HttpError)

  /** The status projection of a capture state: its value, and whether it is recording. */
  function StatusOf(s: RecordingState): (r: StatusResponse)
    ensures r.status == Value(s)
    ensures r.isRecording <==> s == Recording
    ensures r.isRecording <==> r.status == "recording"
  {
    StatusResponse(Value(s), s == Recording)
  }

  /**
    The configuration `update_config` builds: a missing or empty model keeps the
    current model, a missing language (but not an empty one) keeps the current
    language, and the task is the default one.
  */
  function MergeConfig(current: WhisperConfig, req: ConfigRequest): (r: WhisperConfig)
    ensures req.model == None || req.model == Some("") ==> r.modelName == current.modelName
    ensures req.model.Some? && req.model.value != "" ==> r.modelName == req.model.value
    ensures req.language.Some? ==> r.language == req.language
    ensures req.language == None ==> r.language == current.language
    ensures r.task == DefaultConfig.task
  {
    WhisperConfig(
      if req.model.Some? && req.model.value != "" then req.model.value else current.modelName,
      if req.language.Some? then req.language else current.language,
      DefaultConfig.task)
  }

  /** Posting the same configuration request twice has the effect of posting it once. */
  lemma MergeConfigIdempotent(current: WhisperConfig, req: ConfigRequest)
    ensures MergeConfig(MergeConfig(current, req), req) == MergeConfig(current, req)
  {
  }

  /** The transcriber's configuration once `get_transcriber` has run. */
  function ConfigOrDefault(t: Option<WhisperConfig>): (c: WhisperConfig)
    ensures t.Some? ==> c == t.value
    ensures t.None? ==> c == DefaultConfig
  {
    if t.Some? then t.value else DefaultConfig
  }

  /** The route handlers with the module's globals `_audio_capture` and `_transcriber`. */
  class Api<T> {
    var audioCapture: AudioCapture?<T>
    /** `_transcriber`, known by its configuration. */
    var transcriber: Option<WhisperConfig>
    const transcribe: (WhisperConfig, seq<T>) -> TranscriptionResult

    ghost predicate Valid()
      reads this, audioCapture
    {
      audioCapture != null ==> audioCapture.Valid()
    }

    ghost predicate CaptureRecording()
      reads this, audioCapture
    {
      audioCapture != null && audioCapture.state == Recording
    }

    /** The module as imported: neither global exists yet. */
    constructor (transcribe: (WhisperConfig, seq<T>) -> TranscriptionResult)
      ensures Valid() && audioCapture == null && transcriber == None && this.transcribe == transcribe
    {
      audioCapture := null;
      transcriber := None;
      this.transcribe := transcribe;
    }

    /** `get_audio_capture`: creates the capture on the first call and returns that same one ever after. */
    method GetAudioCapture() returns (c: AudioCapture<T>)
      requires Valid()
      modifies this
      ensures Valid() && audioCapture == c && transcriber == old(transcriber)
      ensures old(audioCapture) != null ==> c == old(audioCapture)
      ensures old(audioCapture) == null ==>
                fresh(c) && c.state == Idle && c.audioQueue == [] && c.recordedChunks == []
    {
      if audioCapture == null {
        audioCapture := new AudioCapture();
      }
      c := audioCapture;
    }

    /** `get_transcriber`: creates a transcriber with the default configuration on the first call only. */
    method GetTranscriber() returns (config: WhisperConfig)
      modifies this
      ensures config == ConfigOrDefault(old(transcriber)) && transcriber == Some(config)
      ensures audioCapture == old(audioCapture)
    {
      if transcriber == None {
        transcriber := Some(DefaultConfig);
      }
      config := transcriber.value;
    }

    /** `GET /status`. */
    method GetStatus() returns (r: StatusResponse)
      requires Valid()
      modifies this
      ensures Valid() && audioCapture != null && transcriber == old(transcriber)
      ensures old(audioCapture) != null ==> audioCapture == old(audioCapture)
      ensures old(audioCapture) == null ==>
                fresh(audioCapture) && audioCapture.state == Idle &&
                audioCapture.audioQueue == [] && audioCapture.recordedChunks == []
      ensures r == StatusOf(audioCapture.state)
    {
      var capture := GetAudioCapture();
      r := StatusOf(capture.state);
    }

    /** `POST /start`: 400 while recording, without touching the capture; otherwise starts it. */
    method StartRecording() returns (r: Result<StatusResponse>)
      requires Valid()
      modifies this, audioCapture
      ensures Valid() && audioCapture != null && transcriber == old(transcriber)
      ensures old(audioCapture) != null ==> audioCapture == old(audioCapture)
      ensures old(audioCapture) == null ==> fresh(audioCapture)
      ensures old(CaptureRecording()) ==>
                r == Err(HttpError(400, "Already recording")) && unchanged(audioCapture)
      ensures !old(CaptureRecording()) ==>
                r == Ok(StatusResponse("recording", true)) &&
                audioCapture.state == Recording && audioCapture.audioQueue == [] && audioCapture.recordedChunks == []
    {
      var capture := GetAudioCapture();
      if capture.IsRecording() {
        return Err(HttpError(400, "Already recording"));
      }
      capture.Start();
      r := Ok(StatusOf(capture.state));
    }

    /**
      `POST /stop`: 400 when not recording. Otherwise stops the capture; empty
      audio answers an empty text of duration 0 without consulting the
      transcriber, and any other audio is transcribed with the current
      configuration.
    */
    method StopRecording() returns (r: Result<TranscriptionResponse>)
      requires Valid()
      modifies this, audioCapture
      ensures Valid() && audioCapture != null
      ensures old(audioCapture) != null ==> audioCapture == old(audioCapture)
      ensures old(audioCapture) == null ==> fresh(audioCapture)
      ensures !old(CaptureRecording()) ==>
                r == Err(HttpError(400, "Not recording")) && transcriber == old(transcriber) &&
                (old(audioCapture) != null ==> unchanged(old(audioCapture))) &&
                (old(audioCapture) == null ==>
                   audioCapture.state == Idle && audioCapture.audioQueue == [] && audioCapture.recordedChunks == [])
      ensures old(CaptureRecording()) ==>
                var audio := Flatten(old(audioCapture.audioQueue));
                audioCapture.state == (if old(audioCapture.audioQueue) == [] then Stopped else Idle) &&
                audioCapture.audioQueue == [] && audioCapture.recordedChunks == old(audioCapture.audioQueue) &&
                (audio == [] ==>
                   r == Ok(TranscriptionResponse("", None, Some(0.0))) && transcriber == old(transcriber)) &&
                (audio != [] ==>
                   var config := ConfigOrDefault(old(transcriber));
                   var result := transcribe(config, audio);
                   transcriber == Some(config) &&
                   r == Ok(TranscriptionResponse(result.text, result.language, result.duration)))
    {
      var capture := GetAudioCapture();
      if !capture.IsRecording() {
        return Err(HttpError(400, "Not recording"));
      }
      var audio := capture.Stop();
      if |audio| == 0 {
        return Ok(TranscriptionResponse("", None, Some(0.0)));
      }
      var config := GetTranscriber();
      var result := transcribe(config, audio);
      r := Ok(TranscriptionResponse(result.text, result.language, result.duration));
    }

    /** `POST /config`: replaces the transcriber with one built from the merged configuration. */
    method UpdateConfig(req: ConfigRequest) returns (model: string, language: Option<string>)
      modifies this
      ensures transcriber == Some(MergeConfig(ConfigOrDefault(old(transcriber)), req))
      ensures model == transcriber.value.modelName && language == transcriber.value.language
      ensures audioCapture == old(audioCapture)
    {
      var current := GetTranscriber();
      transcriber := Some(MergeConfig(current, req));
      model := transcriber.value.modelName;
      language := transcriber.value.language;
    }
  }
}
