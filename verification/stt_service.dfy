/** `services/stt-service/stt_service.py`: the Google Speech-to-Text
    front-end that never raises. It picks one recognition config from the
    declared content type, makes at most one `recognize` call, and answers
    with a status of `success`, `no_speech` or `error` (or a mock reply
    when no client could be created). */
module SttService {
  import opened Base
  import opened Strings
  import opened SpeechApi

  /** The config built before the content type is looked at: WEBM_OPUS at
      48000 Hz, en-US, automatic punctuation, the medical model. */
  const DefaultConfig := RecognitionConfig(WebmOpus, 48000, "en-US", true, false, "medical_conversation")

  predicate MentionsWav(contentType: Option<string>) {
    contentType.Some? && Contains(contentType.value, "wav")
  }

  predicate MentionsMp3(contentType: Option<string>) {
    contentType.Some? && Contains(contentType.value, "mp3")
  }

  /** The `if "wav" in ... elif "mp3" in ...` adjustment of the default
      config. */
  function SelectConfig(contentType: Option<string>): (c: RecognitionConfig)
    ensures c == DefaultConfig.(encoding := c.encoding, sampleRateHertz := c.sampleRateHertz)
    ensures c.encoding == Linear16 <==> MentionsWav(contentType)
    ensures c.encoding == Mp3 <==> !MentionsWav(contentType) && MentionsMp3(contentType)
    ensures c.encoding == WebmOpus <==> !MentionsWav(contentType) && !MentionsMp3(contentType)
    ensures c.sampleRateHertz == (if MentionsWav(contentType) then 16000 else 48000)
  {
    if MentionsWav(contentType) then DefaultConfig.(encoding := Linear16, sampleRateHertz := 16000)
    else if MentionsMp3(contentType) then DefaultConfig.(encoding := Mp3)
    else DefaultConfig
  }

  datatype Status = Success | NoSpeech | Error {
    /** The `status` string of the JSON reply. */
    function Name(): string {
      match this
      case Success => "success"
      case NoSpeech => "no_speech"
      case Error => "error"
    }
  }

  /** The JSON reply: `error` and `status` are absent when `None`. */
  datatype Reply = Reply(text: string, confidence: real, error: Option<string>, status: Option<Status>)

  /** The reply together with the config of the `recognize` call made, if
      one was made. */
  datatype Handled = Handled(reply: Reply, sent: Option<RecognitionConfig>)

  const MockText := "Mock transcription - Google API not configured properly"
  const NotConfigured := "Google Speech API not configured"
  const NoSpeechDetected := "No speech detected"

  /** Shapes the answer of the `recognize` call into the reply. */
  function ShapeReply(answer: RecognizeOutcome): Reply {
    match answer
    case Raised(msg) => Reply("", 0.0, Some(msg), Some(Error))
    case Recognized(results) =>
      if |results| == 0 then Reply("", 0.0, Some(NoSpeechDetected), Some(NoSpeech))
      else if |results[0].alternatives| == 0 then Reply("", 0.0, Some(IndexOutOfRange), Some(Error))
      else
        var best := results[0].alternatives[0];
        Reply(best.transcript, best.confidence, None, Some(Success))
  }

  /** `POST /transcribe`. `client` is what `get_speech_client()` returned:
      `None` when every way of creating a client failed. */
  function Transcribe(client: Option<Client>, contentType: Option<string>): (h: Handled)
    // Without a client: the mock reply, and recognition is never attempted.
    ensures client.None? ==>
      h.sent.None? && h.reply == Reply(MockText, 0.5, Some(NotConfigured), None)
    // With a client: exactly one call, with the config chosen from the content type.
    ensures client.Some? ==> h.sent == Some(SelectConfig(contentType)) && h.reply.status.Some?
    // Success exactly when there is a first result with a first alternative,
    // and then text and confidence are that alternative's.
    ensures h.reply.status == Some(Success) <==>
      client.Some? && client.value.answer.Recognized?
      && |client.value.answer.results| > 0 && |client.value.answer.results[0].alternatives| > 0
    ensures h.reply.status == Some(Success) ==>
      var best := client.value.answer.results[0].alternatives[0];
      h.reply.text == best.transcript && h.reply.confidence == best.confidence && h.reply.error.None?
    // An empty result list is "no speech".
    ensures h.reply.status == Some(NoSpeech) <==> client.Some? && client.value.answer == Recognized([])
    // Any exception becomes an error reply carrying its message.
    ensures h.reply.status != Some(Success) ==> h.reply.confidence == (if client.None? then 0.5 else 0.0)
    ensures client.Some? && client.value.answer.Raised? ==>
      h.reply == Reply("", 0.0, Some(client.value.answer.message), Some(Error))
  {
    match client
    case None => Handled(Reply(MockText, 0.5, Some(NotConfigured), None), None)
    case Some(c) => Handled(ShapeReply(c.answer), Some(SelectConfig(contentType)))
  }

  /** Only the first result matters: results after it never change the
      reply. */
  lemma OnlyFirstResultUsed(contentType: Option<string>, first: SpeechResult, rest: seq<SpeechResult>)
    ensures Transcribe(Some(Client(Recognized([first] + rest))), contentType)
         == Transcribe(Some(Client(Recognized([first]))), contentType)
  {
  }

  /** A content type mentioning both "wav" and "mp3" is treated as wav: the
      wav test comes first. */
  lemma WavCheckedBeforeMp3(contentType: string)
    requires Contains(contentType, "wav") && Contains(contentType, "mp3")
    ensures SelectConfig(Some(contentType)).encoding == Linear16
  {
  }
}
