/** `frontend/pages/app/index.tsx`: the voice assistant page. It keeps the
    chat history, sends each message to the LLM service with a short
    conversation context, checks uploads, picks the recorder format and
    names the uploaded recording. Rendering, timestamps and the busy flags
    are not modelled. */
module FrontendApp {
  import opened Base
  import opened Strings

  datatype Role = User | Bot

  /** One entry of `chatMessages`; the text is whatever value the page
      stored, which for bot replies is the service's `response` field. */
  datatype ChatMessage = ChatMessage(role: Role, message: Json)

  // ---------------------------------------------------------------------
  // Conversation context

  /** `.slice(-6)`: the last six messages, or all of them when fewer. */
  function Window(history: seq<ChatMessage>): (w: seq<ChatMessage>)
    ensures |w| == if |history| < 6 then |history| else 6
    ensures forall k :: 0 <= k < |w| ==> w[k] == history[|history| - |w| + k]
  {
    if |history| <= 6 then history else history[|history| - 6..]
  }

  function Label(role: Role): string {
    if role == User then "User" else "Assistant"
  }

  /** One context line, `${User|Assistant}: ${message}`. */
  function Line(m: ChatMessage): (line: string)
    ensures |line| > 0
  {
    Label(m.role) + ": " + m.message.Render()
  }

  function Lines(ms: seq<ChatMessage>): (lines: seq<string>)
    ensures |lines| == |ms|
    ensures forall k :: 0 <= k < |ms| ==> lines[k] == Line(ms[k])
  {
    seq(|ms|, k requires 0 <= k < |ms| => Line(ms[k]))
  }

  /** The context string sent with a message. */
  function Context(history: seq<ChatMessage>): string {
    Join(Lines(Window(history)), "\n")
  }

  /** Joining non-empty lines gives the empty string only for no lines. */
  lemma {:induction false} JoinNonEmpty(lines: seq<string>, sep: string)
    requires forall k :: 0 <= k < |lines| ==> |lines[k]| > 0
    ensures Join(lines, sep) == "" <==> |lines| == 0
    decreases |lines|
  {
    if |lines| > 1 {
      assert |Join(lines, sep)| >= |lines[0]|;
    }
  }

  /** The context is empty exactly when there is no history yet. */
  lemma ContextEmptyIff(history: seq<ChatMessage>)
    ensures Context(history) == "" <==> |history| == 0
  {
    JoinNonEmpty(Lines(Window(history)), "\n");
  }

  /** Messages older than the last six never reach the context. */
  lemma ContextIgnoresOlder(older: seq<ChatMessage>, recent: seq<ChatMessage>)
    requires |recent| >= 6
    ensures Context(older + recent) == Context(recent)
  {
    var h := older + recent;
    assert h[|h| - 6..] == recent[|recent| - 6..];
  }

  lemma LineHasNoBreak(m: ChatMessage)
    requires '\n' !in m.message.Render()
    ensures '\n' !in Line(m)
  {
    assert '\n' !in Label(m.role);
    assert '\n' !in ": ";
  }

  /** When no message text contains a line break, the context splits back
      into one labelled line per message of the window. */
  lemma ContextLinesRoundTrip(history: seq<ChatMessage>)
    requires |history| > 0
    requires forall k :: 0 <= k < |history| ==> '\n' !in history[k].message.Render()
    ensures Split(Context(history), '\n') == Lines(Window(history))
  {
    var w := Window(history);
    var lines := Lines(w);
    forall k | 0 <= k < |lines| ensures '\n' !in lines[k] {
      LineHasNoBreak(w[k]);
    }
    SplitJoin(lines, '\n');
  }

  // ---------------------------------------------------------------------
  // Sending a message to the LLM service

  /** What the `fetch` to the LLM service's `/chat` produced: a non-2xx
      status, a parsed body, or a thrown error. */
  datatype LlmOutcome =
    | NotOk(status: nat)
    | Body(success: Json, response: Json, error: Json)
    | Thrown(message: string)

  /** The request body `{ message, context }`. */
  datatype LlmRequest = LlmRequest(message: Json, context: string)

  const ErrorPrefix := "Sorry, I encountered an error: "

  /** The message of the error the `try` block raises, if any. */
  function Failure(outcome: LlmOutcome): (reason: Option<string>)
    ensures reason.None? <==> outcome.Body? && outcome.success.Truthy()
    // A non-2xx reply names its status.
    ensures outcome.NotOk? ==> reason == Some("LLM request failed: " + NatToString(outcome.status))
    // An unsuccessful body gives `data.error || 'LLM response failed'`.
    ensures outcome.Body? && !outcome.success.Truthy() ==>
      reason == Some(if outcome.error.Truthy() then outcome.error.Render() else "LLM response failed")
    // A thrown error keeps its own message.
    ensures outcome.Thrown? ==> reason == Some(outcome.message)
  {
    match outcome
    case NotOk(status) => Some("LLM request failed: " + NatToString(status))
    case Body(success, _, error) =>
      if success.Truthy() then None
      else Some(if error.Truthy() then error.Render() else "LLM response failed")
    case Thrown(message) => Some(message)
  }

  /** The single bot message a send adds. */
  function BotReply(outcome: LlmOutcome): (m: ChatMessage)
    ensures m.role == Bot
    ensures Failure(outcome).None? ==> m.message == outcome.response
    ensures Failure(outcome).Some? ==> m.message == Str(ErrorPrefix + Failure(outcome).value)
  {
    match Failure(outcome)
    case None => ChatMessage(Bot, outcome.response)
    case Some(reason) => ChatMessage(Bot, Str(ErrorPrefix + reason))
  }

  datatype Sent = Sent(history: seq<ChatMessage>, request: LlmRequest)

  /** `sendToLLM`: the user message is appended, the request carries the
      context built from the history as it was before this send, and
      exactly one bot message follows, whatever the outcome. */
  function SendToLlm(history: seq<ChatMessage>, message: Json, outcome: LlmOutcome): (s: Sent)
    ensures |s.history| == |history| + 2
    ensures s.history[..|history|] == history
    ensures s.history[|history|] == ChatMessage(User, message)
    ensures s.history[|history| + 1] == BotReply(outcome)
    ensures s.request == LlmRequest(message, Context(history))
  {
    Sent(history + [ChatMessage(User, message), BotReply(outcome)], LlmRequest(message, Context(history)))
  }

  /** The page after `handleSendMessage`. */
  datatype Page = Page(history: seq<ChatMessage>, input: string, request: Option<LlmRequest>)

  /** `handleSendMessage`: whitespace-only input does nothing; otherwise the
      trimmed input is sent and the input box is cleared. */
  function HandleSendMessage(history: seq<ChatMessage>, input: string, outcome: LlmOutcome): (p: Page)
    ensures p.request.None? <==> AllSpace(input)
    ensures p.request.None? ==> p == Page(history, input, None)
    ensures p.request.Some? ==>
      && p.request.value == LlmRequest(Str(Strip(input)), Context(history))
      && p.input == ""
      && p.history == SendToLlm(history, Str(Strip(input)), outcome).history
  {
    StripEmptyIff(input);
    var trimmed := Strip(input);
    if trimmed == "" then Page(history, input, None)
    else
      var sent := SendToLlm(history, Str(trimmed), outcome);
      Page(sent.history, "", Some(sent.request))
  }

  /** Sending leading or trailing whitespace around a message sends the
      same message. */
  lemma PaddingIsNotSent(history: seq<ChatMessage>, input: string, pad: string, outcome: LlmOutcome)
    requires AllSpace(pad)
    ensures HandleSendMessage(history, input + pad, outcome).request
         == HandleSendMessage(history, input, outcome).request
  {
    StripIgnoresTrailingSpace(input, pad);
    StripEmptyIff(input);
    StripEmptyIff(input + pad);
  }

  // ---------------------------------------------------------------------
  // Uploads and recordings

  datatype PickedFile = PickedFile(mimeType: string, size: nat)

  datatype UploadCheck = NothingPicked | Alerted(message: string) | Accepted(blobType: string)

  /** `handleFileUpload`'s checks: the type first, then the 20 MiB bound
      (exactly 20 MiB is accepted). */
  function ValidateUpload(file: Option<PickedFile>): (c: UploadCheck)
    ensures c.NothingPicked? <==> file.None?
    ensures c.Accepted? <==> file.Some? && IsAudioType(Some(file.value.mimeType)) && file.value.size <= TwentyMiB
    ensures c.Accepted? ==> c.blobType == file.value.mimeType
    ensures file.Some? && !IsAudioType(Some(file.value.mimeType)) ==> c == Alerted("Please select an audio file")
    ensures file.Some? && IsAudioType(Some(file.value.mimeType)) && file.value.size > TwentyMiB ==>
      c == Alerted("File size must be less than 20MB")
  {
    match file
    case None => NothingPicked
    case Some(f) =>
      if !StartsWith(f.mimeType, "audio/") then Alerted("Please select an audio file")
      else if f.size > 20 * 1024 * 1024 then Alerted("File size must be less than 20MB")
      else Accepted(f.mimeType)
  }

  /** The recorder formats in order of preference. */
  const RecorderPreference: seq<string> := ["audio/webm;codecs=opus", "audio/webm", "audio/mp4"]

  /** Reference definition: the first candidate the browser supports, or
      the fallback. */
  function FirstSupported(candidates: seq<string>, isSupported: string -> bool, fallback: string): string {
    if |candidates| == 0 then fallback
    else if isSupported(candidates[0]) then candidates[0]
    else FirstSupported(candidates[1..], isSupported, fallback)
  }

  /** None of the preferred formats is the fallback. */
  lemma FallbackNotPreferred()
    ensures forall k :: 0 <= k < |RecorderPreference| ==> RecorderPreference[k] != "audio/wav"
  {
    assert RecorderPreference[0][7] != "audio/wav"[7];
    assert RecorderPreference[1][7] != "audio/wav"[7];
    assert RecorderPreference[2][6] != "audio/wav"[6];
  }

  /** The nested `MediaRecorder.isTypeSupported` conditional. */
  function RecorderMime(isSupported: string -> bool): (mime: string)
    ensures mime == "audio/wav" <==> forall k :: 0 <= k < |RecorderPreference| ==> !isSupported(RecorderPreference[k])
    ensures mime != "audio/wav" ==> isSupported(mime)
  {
    FallbackNotPreferred();
    var p := RecorderPreference;
    if isSupported(p[0]) then p[0]
    else if isSupported(p[1]) then p[1]
    else if isSupported(p[2]) then p[2]
    else "audio/wav"
  }

  /** The conditional is the preference list read in order. */
  lemma RecorderMimeIsFirstSupported(isSupported: string -> bool)
    ensures RecorderMime(isSupported) == FirstSupported(RecorderPreference, isSupported, "audio/wav")
  {
    var p := RecorderPreference;
    assert p[1..][1..][1..] == [];
  }

  /** The extension of the uploaded file name: the part of the blob type
      between the first and second "/", or "wav" when that is missing or
      empty. */
  function Extension(blobType: string): (ext: string)
    ensures ext != ""
    ensures '/' !in ext
  {
    var parts := Split(blobType, '/');
    if |parts| > 1 && parts[1] != "" then parts[1] else "wav"
  }

  /** `recording.${audioBlob.type.split('/')[1] || 'wav'}`. */
  function RecordingName(blobType: string): (name: string)
    ensures StartsWith(name, "recording.")
  {
    "recording." + Extension(blobType)
  }

  /** For a `type/subtype` blob type the extension is the subtype, and a
      type without a subtype falls back to "wav". */
  lemma ExtensionIsSubtype(mediaType: string, subtype: string)
    requires '/' !in mediaType && '/' !in subtype
    ensures Extension(mediaType + "/" + subtype) == (if subtype == "" then "wav" else subtype)
    ensures Extension(mediaType) == "wav"
  {
    var parts := [mediaType, subtype];
    SplitJoin(parts, '/');
    assert Join(parts, "/") == mediaType + "/" + subtype;
    SplitPlain(mediaType, '/');
  }

  // ---------------------------------------------------------------------
  // Transcription followed by the LLM call

  /** What the `fetch` to the gateway's `/api/transcribe` produced. */
  datatype TranscribeOutcome =
    | TranscribeNotOk(status: nat, statusText: string)
    | TranscribeBody(success: Json, transcription: Json, error: Json)
    | TranscribeThrown(message: string)

  datatype Transcribed = Transcribed(shown: Option<Json>, sent: Option<Sent>, alert: Option<string>)

  /** `transcribeAudio`: a successful transcription is shown and sent to the
      LLM; any failure raises a single alert and sends nothing. */
  function TranscribeAudio(history: seq<ChatMessage>, outcome: TranscribeOutcome, llm: LlmOutcome): (t: Transcribed)
    ensures t.sent.Some? <==> t.alert.None?
    ensures t.sent.Some? <==> outcome.TranscribeBody? && outcome.success.Truthy()
    ensures t.sent.Some? ==>
      t.shown == Some(outcome.transcription)
      && t.sent.value == SendToLlm(history, outcome.transcription, llm)
    ensures t.alert.Some? ==> t.shown.None? && StartsWith(t.alert.value, "Failed to transcribe audio: ")
    // The reason after the prefix: the status line of a non-2xx reply,
    // `data.error || 'Transcription failed'`, or the thrown message.
    ensures outcome.TranscribeNotOk? ==>
      t.alert == Some("Failed to transcribe audio: " + "Transcription failed: "
                      + NatToString(outcome.status) + " " + outcome.statusText)
    ensures outcome.TranscribeBody? && !outcome.success.Truthy() ==>
      t.alert == Some("Failed to transcribe audio: "
                      + (if outcome.error.Truthy() then outcome.error.Render() else "Transcription failed"))
    ensures outcome.TranscribeThrown? ==> t.alert == Some("Failed to transcribe audio: " + outcome.message)
  {
    var prefix := "Failed to transcribe audio: ";
    match outcome
    case TranscribeNotOk(status, statusText) =>
      Transcribed(None, None, Some(prefix + "Transcription failed: " + NatToString(status) + " " + statusText))
    case TranscribeBody(success, transcription, error) =>
      if success.Truthy() then
        Transcribed(Some(transcription), Some(SendToLlm(history, transcription, llm)), None)
      else
        Transcribed(None, None, Some(prefix + (if error.Truthy() then error.Render() else "Transcription failed")))
    case TranscribeThrown(message) => Transcribed(None, None, Some(prefix + message))
  }
}
