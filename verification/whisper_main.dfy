/** `services/whisper-service/main.py`: the Whisper transcription service.
    It refuses non-audio uploads before touching the model, loads the model
    lazily, picks the temporary file's extension from the content type, and
    reports the stripped text, the language and the first segment's end. */
module WhisperMain {
  import opened Base
  import opened Strings
  import opened FastApi
  import opened LazyModel
  import opened WhisperApi

  const ExtensionTable: map<string, string> := map[
    "audio/wav" := ".wav",
    "audio/webm" := ".webm",
    "audio/mp4" := ".mp4",
    "audio/mpeg" := ".mp3",
    "audio/ogg" := ".ogg"]

  /** `content_type_to_ext.get(file.content_type, '.wav')`. */
  function Extension(contentType: string): (ext: string)
    ensures contentType in ExtensionTable ==> ext == ExtensionTable[contentType]
    ensures contentType !in ExtensionTable ==> ext == ".wav"
    ensures ext in ExtensionTable.Values
  {
    assert ExtensionTable["audio/wav"] == ".wav";
    if contentType in ExtensionTable then ExtensionTable[contentType] else ".wav"
  }

  /** `result.get("segments", [{}])[0].get("end", 0) if result.get("segments") else 0`. */
  function Duration(result: TranscribeResult): (d: real)
    ensures (result.segments.None? || result.segments.value == []) ==> d == 0.0
    ensures result.segments.Some? && result.segments.value != [] ==>
      d == result.segments.value[0].end.GetOr(0.0)
  {
    match result.segments
    case None => 0.0
    case Some(segments) => if |segments| == 0 then 0.0 else segments[0].end.GetOr(0.0)
  }

  /** `load_model()` of this service: at most one initialisation. */
  function LoadModel(slot: Option<WhisperModel>, loader: LoadOutcome<WhisperModel>): (s: LoadStep<WhisperModel>)
    ensures s.loaderCalled <==> slot.None?
    ensures slot.Some? ==> s.result == Loaded(slot.value) && s.slot == slot
    ensures s.result.Loaded? ==> s.slot == Some(s.result.model)
    ensures slot.None? ==> s.result == loader
    ensures s.result.LoadRaised? ==> s.slot.None?
  {
    Load(slot, loader)
  }

  /** The form part the handler declares, `file: UploadFile = File(...)`. */
  const FileField := "file"

  datatype Reply =
    | Transcribed(transcription: string, language: string, duration: real)
    | HttpError(status: nat, detail: string)

  /** The reply, the model handle afterwards, whether the loader ran, and
      the extension of the temporary file handed to `model.transcribe` (if
      it was called). */
  datatype Handled = Handled(reply: Reply, slot: Option<WhisperModel>, loaderCalled: bool, sent: Option<string>)

  /** `POST /transcribe`. `slot` is the global `model`; `loader` and
      `outcome` are what loading and transcribing would do. */
  function Transcribe(slot: Option<WhisperModel>, loader: LoadOutcome<WhisperModel>,
                      contentType: Option<string>, outcome: TranscribeOutcome): (h: Handled)
    // A missing or non-audio type is refused before the model is loaded,
    // as a 500 that wraps the 400.
    ensures !IsAudioType(contentType) ==>
      h == Handled(HttpError(500, RejectedUpload), slot, false, None)
    // An accepted upload loads the model first (only if not yet loaded).
    ensures IsAudioType(contentType) ==>
      h.slot == LoadModel(slot, loader).slot && h.loaderCalled == slot.None?
    // Transcription runs, on a file with the mapped extension, exactly when
    // the upload is audio and a model is available.
    ensures h.sent.Some? <==> IsAudioType(contentType) && h.slot.Some?
    ensures h.sent.Some? ==> h.sent.value == Extension(contentType.value)
    ensures h.reply.Transcribed? <==> h.sent.Some? && outcome.Done?
    // The text comes back stripped; language defaults to "unknown".
    ensures h.reply.Transcribed? ==>
      IsStripOf(outcome.result.text, h.reply.transcription)
      && h.reply.language == outcome.result.language.GetOr("unknown")
      && h.reply.duration == Duration(outcome.result)
    ensures h.reply.HttpError? ==> h.reply.status == 500 && StartsWith(h.reply.detail, "Transcription failed: ")
    // Each failure's detail is the exception's own text behind the prefix.
    ensures IsAudioType(contentType) && slot.None? && loader.LoadRaised? ==>
      h.reply == HttpError(500, TranscriptionFailed(loader.message)) && h.sent.None?
    ensures h.sent.Some? && outcome.Raised? ==>
      h.reply == HttpError(500, TranscriptionFailed(outcome.message))
  {
    if !IsAudioType(contentType) then Handled(HttpError(500, RejectedUpload), slot, false, None)
    else
      var step := LoadModel(slot, loader);
      match step.result
      case LoadRaised(msg) => Handled(HttpError(500, TranscriptionFailed(msg)), step.slot, step.loaderCalled, None)
      case Loaded(_) =>
        var ext := Extension(contentType.value);
        match outcome
        case Raised(msg) => Handled(HttpError(500, TranscriptionFailed(msg)), step.slot, step.loaderCalled, Some(ext))
        case Done(result) =>
          var reply := Transcribed(Strip(result.text), result.language.GetOr("unknown"), Duration(result));
          Handled(reply, step.slot, step.loaderCalled, Some(ext))
  }
}
