/** `services/whisper-service/simple_service.py`: the same Whisper service
    with one more extension-table entry (`audio/webm;codecs=opus`), no
    duration, and timing fields that this model leaves out. */
module WhisperSimple {
  import opened Base
  import opened Strings
  import opened FastApi
  import opened LazyModel
  import opened WhisperApi
  import WhisperMain

  const ExtensionTable: map<string, string> := map[
    "audio/wav" := ".wav",
    "audio/webm" := ".webm",
    "audio/webm;codecs=opus" := ".webm",
    "audio/mp4" := ".mp4",
    "audio/mpeg" := ".mp3",
    "audio/ogg" := ".ogg"]

  /** `content_type_to_ext.get(file.content_type, '.wav')`. */
  function Extension(contentType: string): (ext: string)
    ensures contentType in ExtensionTable ==> ext == ExtensionTable[contentType]
    ensures contentType !in ExtensionTable ==> ext == ".wav"
  {
    if contentType in ExtensionTable then ExtensionTable[contentType] else ".wav"
  }

  /** The two services' tables differ only in the Opus entry: browsers'
      preferred recording type gets ".webm" here and ".wav" in `main.py`. */
  lemma ExtensionTablesAgreeExceptOpus(contentType: string)
    ensures contentType != "audio/webm;codecs=opus" ==>
      Extension(contentType) == WhisperMain.Extension(contentType)
    ensures Extension("audio/webm;codecs=opus") == ".webm"
    ensures WhisperMain.Extension("audio/webm;codecs=opus") == ".wav"
  {
  }

  /** `load_model()` of this service: at most one initialisation. */
  function LoadModel(slot: Option<WhisperModel>, loader: LoadOutcome<WhisperModel>): (s: LoadStep<WhisperModel>)
    ensures s == WhisperMain.LoadModel(slot, loader)
  {
    Load(slot, loader)
  }

  datatype Reply =
    | Transcribed(transcription: string, language: string)
    | HttpError(status: nat, detail: string)

  datatype Handled = Handled(reply: Reply, slot: Option<WhisperModel>, loaderCalled: bool, sent: Option<string>)

  /** `POST /transcribe`. */
  function Transcribe(slot: Option<WhisperModel>, loader: LoadOutcome<WhisperModel>,
                      contentType: Option<string>, outcome: TranscribeOutcome): (h: Handled)
    ensures !IsAudioType(contentType) ==>
      h == Handled(HttpError(500, RejectedUpload), slot, false, None)
    ensures IsAudioType(contentType) ==>
      h.slot == LoadModel(slot, loader).slot && h.loaderCalled == slot.None?
    ensures h.sent.Some? <==> IsAudioType(contentType) && h.slot.Some?
    ensures h.sent.Some? ==> h.sent.value == Extension(contentType.value)
    ensures h.reply.Transcribed? <==> h.sent.Some? && outcome.Done?
    ensures h.reply.Transcribed? ==>
      IsStripOf(outcome.result.text, h.reply.transcription)
      && h.reply.language == outcome.result.language.GetOr("unknown")
    ensures h.reply.HttpError? ==> h.reply.status == 500 && StartsWith(h.reply.detail, "Transcription failed: ")
    // Each failure's detail is the exception's own text behind the prefix.
    ensures IsAudioType(contentType) && slot.None? && loader.LoadRaised? ==>
      h.reply == HttpError(500, TranscriptionFailed(loader.message)) && h.sent.None?
    ensures h.sent.Some? && outcome.Raised? ==>
      h.reply == HttpError(500, TranscriptionFailed(outcome.message))
  {
    if !IsAudioType(contentType) then Handled(HttpError(500, RejectedUpload), slot, false, None)
    else
      var step := LoadModel(slot, loader);
      match step.result
      case LoadRaised(msg) => Handled(HttpError(500, TranscriptionFailed(msg)), step.slot, step.loaderCalled, None)
      case Loaded(_) =>
        var ext := Extension(contentType.value);
        match outcome
        case Raised(msg) => Handled(HttpError(500, TranscriptionFailed(msg)), step.slot, step.loaderCalled, Some(ext))
        case Done(result) =>
          Handled(Transcribed(Strip(result.text), result.language.GetOr("unknown")), step.slot, step.loaderCalled, Some(ext))
  }

  /** Apart from the extension and the duration field, the two services
      answer alike: same refusals, same errors, same text and language. */
  lemma AgreesWithMain(slot: Option<WhisperModel>, loader: LoadOutcome<WhisperModel>,
                       contentType: Option<string>, outcome: TranscribeOutcome)
    ensures var s := Transcribe(slot, loader, contentType, outcome);
      var m := WhisperMain.Transcribe(slot, loader, contentType, outcome);
      && s.slot == m.slot && s.loaderCalled == m.loaderCalled && s.sent.Some? == m.sent.Some?
      && (s.reply.HttpError? <==> m.reply.HttpError?)
      && (s.reply.HttpError? ==> s.reply.detail == m.reply.detail)
      && (s.reply.Transcribed? ==>
            s.reply.transcription == m.reply.transcription && s.reply.language == m.reply.language)
  {
  }
}
