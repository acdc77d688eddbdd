/** `backend/server.js`: the gateway with mock transcription. It checks
    that each request carries its input, forwards chat and speech requests
    to the LLM and TTS services, and replies with a fixed fallback whenever
    a peer fails, so those two endpoints report success either way. */
module BackendServer {
  import opened Base
  import opened Strings
  import opened Health

  /** The file part multer parsed from the form, with the form field it
      came under. */
  datatype Upload = Upload(field: string, originalName: string, size: nat, mimetype: string)

  /** The one file field the route accepts, `upload.single('audio')`. */
  const UploadField := "audio"

  /** Multer's text for a file under any other field. */
  const UnexpectedField := "Unexpected field"

  const MockTranscription := "Mock transcription: Hello, how can I help with your health concerns today?"

  datatype TranscribeReply =
    | Transcribed(transcription: string, fileSize: nat, fileName: string)
    | TranscribeRejected(status: nat, error: string)
      /** An error multer passes to Express's default handler, which this
          gateway does not replace: a 500 page carrying the message. */
    | Unhandled(status: nat, message: string)

  /** `POST /api/transcribe`. Multer refuses a file under a field other
      than `audio`, then a file over 20 MiB, before the handler runs; no
      STT call is made, and an accepted upload gets the fixed mock
      transcription echoing its size and name. */
  function Transcribe(file: Option<Upload>): (r: TranscribeReply)
    ensures file.None? <==> r == TranscribeRejected(400, "No audio file provided")
    ensures file.Some? && file.value.field != UploadField <==> r == Unhandled(500, UnexpectedField)
    ensures file.Some? && file.value.field == UploadField && file.value.size > TwentyMiB <==>
      r == Unhandled(500, "File too large")
    ensures r.Transcribed? <==> file.Some? && file.value.field == UploadField && file.value.size <= TwentyMiB
    ensures r.Transcribed? ==>
      r.transcription == MockTranscription
      && r.fileSize == file.value.size && r.fileName == file.value.originalName
  {
    match file
    case None => TranscribeRejected(400, "No audio file provided")
    case Some(f) =>
      if f.field != UploadField then Unhandled(500, UnexpectedField)
      else if f.size > TwentyMiB then Unhandled(500, "File too large")
      else Transcribed(MockTranscription, f.size, f.originalName)
  }

  datatype ChatReply =
    | PassedThrough(body: Payload)
    | Fallback(response: string, kind: string, confidence: real)
    | ChatRejected(status: nat, error: string)

  /** The body forwarded to the LLM service's `/chat`. */
  datatype ChatForward = ChatForward(message: Json, context: Json)

  datatype ChatHandled = ChatHandled(reply: ChatReply, sent: Option<ChatForward>)

  const ChatFallbackHead := "Thank you for your message: "
  const ChatFallbackTail := ". I'm a healthcare AI assistant. For proper medical advice, please consult with qualified healthcare professionals."

  /** The fallback reply, quoting the message as the template literal
      renders it. */
  function ChatFallback(message: Json): (r: string)
    ensures Contains(r, "\"" + message.Render() + "\"")
  {
    ContainsInfix(ChatFallbackHead, "\"" + message.Render() + "\"", ChatFallbackTail);
    ChatFallbackHead + ("\"" + message.Render() + "\"") + ChatFallbackTail
  }

  /** `POST /api/chat`. */
  function Chat(message: Json, context: Json, llm: PeerOutcome): (h: ChatHandled)
    ensures !message.Truthy() <==> h.sent.None?
    ensures !message.Truthy() ==> h.reply == ChatRejected(400, "Message is required")
    ensures message.Truthy() ==> h.sent == Some(ChatForward(message, context))
    // The LLM's reply body is returned unchanged...
    ensures message.Truthy() && llm.Replied? ==> h.reply == PassedThrough(llm.body)
    // ...and any failure becomes a successful fallback quoting the message.
    ensures message.Truthy() && llm.PeerFailed? ==>
      h.reply.Fallback? && h.reply.kind == "fallback" && h.reply.confidence == 0.5
      && Contains(h.reply.response, "\"" + message.Render() + "\"")
  {
    if !message.Truthy() then ChatHandled(ChatRejected(400, "Message is required"), None)
    else
      var reply := match llm
        case Replied(body) => PassedThrough(body)
        case PeerFailed(_) => Fallback(ChatFallback(message), "fallback", 0.5);
      ChatHandled(reply, Some(ChatForward(message, context)))
  }

  datatype SpeakReply =
    | Processed(message: string, audioUrl: string)
    | Echoed(message: string, text: Json)
    | SpeakRejected(status: nat, error: string)
    | SpeakFailed(status: nat, error: string, message: string)

  /** The body forwarded to the TTS service's `/speak`. */
  datatype SpeakForward = SpeakForward(text: Json, voice: Json, language: Json)

  datatype SpeakHandled = SpeakHandled(reply: SpeakReply, sent: Option<SpeakForward>)

  /** `POST /api/speak`. Voice and language default to "default" and "en"
      when missing (not when `null`). A non-string truthy text makes
      `text.substring` throw, which the outer `catch` answers with a 500
      carrying the error's message; `thrown` is the text of that
      `TypeError`. */
  function Speak(text: Json, voice: Json, language: Json, tts: PeerOutcome, thrown: string): (h: SpeakHandled)
    ensures !text.Truthy() ==> h == SpeakHandled(SpeakRejected(400, "Text is required"), None)
    ensures text.Truthy() && !text.Str? ==> h == SpeakHandled(SpeakFailed(500, "TTS request failed", thrown), None)
    ensures h.sent.Some? <==> text.Truthy() && text.Str?
    ensures h.sent.Some? ==>
      h.sent.value == SpeakForward(text, voice.OrDefault("default"), language.OrDefault("en"))
    // A string text is answered with success whether the TTS call works or not.
    ensures h.sent.Some? ==> h.reply.Processed? || h.reply.Echoed?
    ensures h.sent.Some? ==> (h.reply.Echoed? <==> tts.PeerFailed?)
    ensures h.reply.Echoed? ==> h.reply.text == text
  {
    if !text.Truthy() then SpeakHandled(SpeakRejected(400, "Text is required"), None)
    else if !text.Str? then SpeakHandled(SpeakFailed(500, "TTS request failed", thrown), None)
    else
      var forward := SpeakForward(text, voice.OrDefault("default"), language.OrDefault("en"));
      match tts
      case Replied(_) => SpeakHandled(Processed("TTS request processed", "/api/audio/temp.mp3"), Some(forward))
      case PeerFailed(_) =>
        SpeakHandled(Echoed("TTS service not available - text received successfully", text), Some(forward))
  }

  /** The three peers, in the order they are probed. */
  function Services(sttUrl: string, ttsUrl: string, llmUrl: string): seq<Service> {
    [Service("stt", sttUrl), Service("tts", ttsUrl), Service("llm", llmUrl)]
  }

  /** `GET /api/services/status`: overall success is always true, and the
      map has exactly the entries stt, tts and llm, each healthy exactly
      when its probe succeeded and each reporting its URL. */
  method ServicesStatus(sttUrl: string, ttsUrl: string, llmUrl: string, probe: string -> PeerOutcome)
    returns (success: bool, status: map<string, Entry>)
    ensures success
    ensures status.Keys == {"stt", "tts", "llm"}
    ensures status["stt"] == EntryFor(Service("stt", sttUrl), probe, true)
    ensures status["tts"] == EntryFor(Service("tts", ttsUrl), probe, true)
    ensures status["llm"] == EntryFor(Service("llm", llmUrl), probe, true)
  {
    var services := Services(sttUrl, ttsUrl, llmUrl);
    status := Aggregate(services, probe, true);
    forall n ensures n in Names(services) <==> n in {"stt", "tts", "llm"} {
      NamesIff(services, n);
    }
    assert LastWithName(services, 0, 3) && LastWithName(services, 1, 3) && LastWithName(services, 2, 3);
    assert services[0].name == "stt" && services[1].name == "tts" && services[2].name == "llm";
    success := true;
  }
}
