/** `services/stt-service/main.py`: the Google Speech-to-Text front-end
    that raises. Only `audio/...` uploads are accepted, the encoding comes
    from an exact-match table, every result's transcript is concatenated,
    and every failure surfaces as HTTP 500 "Transcription failed: ...". */
module SttMain {
  import opened Base
  import opened Strings
  import opened SpeechApi
  import opened FastApi

  /** The config built before the table lookup: LINEAR16 at 16000 Hz,
      en-US, punctuation and word offsets on, the `latest_long` model. */
  const BaseConfig := RecognitionConfig(Linear16, 16000, "en-US", true, true, "latest_long")

  const EncodingTable: map<string, Encoding> := map[
    "audio/wav" := Linear16,
    "audio/webm" := WebmOpus,
    "audio/mp4" := Mp3,
    "audio/mpeg" := Mp3,
    "audio/ogg" := OggOpus]

  /** The config sent to `recognize` for an accepted content type: only the
      encoding depends on it, looked up by exact match; the sample rate is
      16000 whatever the type. */
  function ConfigFor(contentType: string): (c: RecognitionConfig)
    ensures c == BaseConfig.(encoding := c.encoding)
    ensures c.sampleRateHertz == 16000
    ensures contentType in EncodingTable ==> c.encoding == EncodingTable[contentType]
    ensures contentType !in EncodingTable ==> c == BaseConfig
  {
    if contentType in EncodingTable then BaseConfig.(encoding := EncodingTable[contentType])
    else BaseConfig
  }

  /** What `get_speech_client()` does: it returns a client, or raises
      (no credentials configured, or the credentials file cannot be read). */
  datatype ClientSetup = Ready(client: Client) | SetupFailed(message: string)

  const NoCredentials :=
    "No Google Cloud credentials found. Set GOOGLE_APPLICATION_CREDENTIALS or GOOGLE_API_KEY environment variable."

  /** The form part the handler declares, `file: UploadFile = File(...)`. */
  const FileField := "file"

  datatype Reply =
    | Transcribed(transcription: string, language: string, confidence: real, service: string)
    | HttpError(status: nat, detail: string)

  datatype Handled = Handled(reply: Reply, sent: Option<RecognitionConfig>)

  const ServiceName := "google-cloud-speech-to-text"
  /** The outer handler's 500 for an exception whose text is `message`. */
  function Failed(message: string): Reply {
    HttpError(500, TranscriptionFailed(message))
  }

  /** The loop `transcription += result.alternatives[0].transcript + " "`. */
  function Concatenated(results: seq<SpeechResult>): string
    requires AllHaveAlternatives(results)
  {
    if |results| == 0 then ""
    else results[0].alternatives[0].transcript + " " + Concatenated(results[1..])
  }

  /** Each result's first transcript, in order. */
  function FirstTranscripts(results: seq<SpeechResult>): (ts: seq<string>)
    requires AllHaveAlternatives(results)
    ensures |ts| == |results|
    ensures forall k :: 0 <= k < |ts| ==> ts[k] == results[k].alternatives[0].transcript
  {
    seq(|results|, k requires 0 <= k < |results| => results[k].alternatives[0].transcript)
  }

  /** The concatenation is the first transcripts joined by single spaces,
      followed by one more space. */
  lemma {:induction false} ConcatenatedIsJoin(results: seq<SpeechResult>)
    requires AllHaveAlternatives(results) && |results| > 0
    ensures Concatenated(results) == Join(FirstTranscripts(results), " ") + " "
    decreases |results|
  {
    if |results| == 1 {
    } else {
      ConcatenatedIsJoin(results[1..]);
      assert FirstTranscripts(results[1..]) == FirstTranscripts(results)[1..];
    }
  }

  /** Shapes the answer of `recognize` into the reply. */
  function ShapeReply(answer: RecognizeOutcome): Reply {
    match answer
    case Raised(msg) => Failed(msg)
    case Recognized(results) =>
      if !AllHaveAlternatives(results) then Failed(IndexOutOfRange)
      else
        var confidence := if |results| > 0 then results[0].alternatives[0].confidence else 0.0;
        Transcribed(Strip(Concatenated(results)), "en-US", confidence, ServiceName)
  }

  /** `POST /transcribe`. */
  function Transcribe(contentType: Option<string>, setup: ClientSetup): (h: Handled)
    // A missing or non-audio type is refused before any client or backend
    // call; the 400 raised for it is re-raised by the outer handler as a 500.
    ensures !IsAudioType(contentType) ==>
      h.sent.None? && h.reply == HttpError(500, RejectedUpload)
    // Otherwise exactly one call is made once a client exists, with a
    // 16000 Hz config whose encoding comes from the table.
    ensures h.sent.Some? <==> IsAudioType(contentType) && setup.Ready?
    ensures h.sent.Some? ==> h.sent.value == ConfigFor(contentType.value)
    // The handler answers normally exactly when recognition returned
    // results that all have an alternative.
    ensures h.reply.Transcribed? <==>
      IsAudioType(contentType) && setup.Ready? && setup.client.answer.Recognized?
      && AllHaveAlternatives(setup.client.answer.results)
    ensures h.reply.Transcribed? ==>
      h.reply.language == "en-US" && h.reply.service == ServiceName
    // No results: empty transcription and confidence 0.
    ensures h.reply.Transcribed? && setup.client.answer.results == [] ==>
      h.reply.transcription == "" && h.reply.confidence == 0.0
    // Otherwise the confidence is the first result's best alternative's.
    ensures h.reply.Transcribed? && setup.client.answer.results != [] ==>
      h.reply.confidence == setup.client.answer.results[0].alternatives[0].confidence
    ensures h.reply.HttpError? ==>
      h.reply.status == 500 && StartsWith(h.reply.detail, "Transcription failed: ")
    // Each failure's detail is the exception's own text behind the prefix:
    // the setup error, the recogniser's error, or the `IndexError` of a
    // result without alternatives.
    ensures IsAudioType(contentType) && setup.SetupFailed? ==> h.reply == Failed(setup.message)
    ensures IsAudioType(contentType) && setup.Ready? && setup.client.answer.Raised? ==>
      h.reply == Failed(setup.client.answer.message)
    ensures IsAudioType(contentType) && setup.Ready? && setup.client.answer.Recognized?
            && !AllHaveAlternatives(setup.client.answer.results) ==>
      h.reply == Failed(IndexOutOfRange)
  {
    if !IsAudioType(contentType) then Handled(HttpError(500, RejectedUpload), None)
    else match setup
      case SetupFailed(msg) => Handled(Failed(msg), None)
      case Ready(client) =>
        var config := ConfigFor(contentType.value);
        Handled(ShapeReply(client.answer), Some(config))
  }

  /** The returned transcription is Python's `" ".join(transcripts).strip()`
      over the first transcripts. */
  lemma TranscriptionIsStrippedJoin(contentType: Option<string>, client: Client)
    requires IsAudioType(contentType) && client.answer.Recognized?
    requires AllHaveAlternatives(client.answer.results) && |client.answer.results| > 0
    ensures Transcribe(contentType, Ready(client)).reply.transcription
         == Strip(Join(FirstTranscripts(client.answer.results), " "))
  {
    ConcatenatedIsJoin(client.answer.results);
    StripIgnoresTrailingSpace(Join(FirstTranscripts(client.answer.results), " "), " ");
  }
}
