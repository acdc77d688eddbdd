/** `frontend/components/ChatBot.tsx`: the chat widget. Text goes straight
    to the LLM service; audio (recorded or uploaded) goes to the STT service
    on port 5001, and the widget shows the transcription and whatever LLM
    reply that service attached. Each message list below is the state after
    the corresponding React updates have been applied. */
module ChatBot {
  import opened Base
  import opened Strings
  import opened FrontendApp

  /** One entry of `messages`; ids and timestamps are not modelled. */
  datatype Message = Message(role: Role, content: Json, isAudio: bool)

  /** `addMessage`: one new message at the end, earlier ones untouched. */
  function AddMessage(messages: seq<Message>, role: Role, content: Json, isAudio: bool): (r: seq<Message>)
    ensures |r| == |messages| + 1
    ensures r[..|messages|] == messages
    ensures r[|messages|] == Message(role, content, isAudio)
  {
    messages + [Message(role, content, isAudio)]
  }

  /** The widget state the handlers change. */
  datatype Widget = Widget(messages: seq<Message>, input: string, error: string)

  // ---------------------------------------------------------------------
  // Text messages

  /** What the `fetch` to the LLM service's `/chat` produced. */
  datatype TextOutcome = TextNotOk(status: nat) | TextBody(response: Json) | TextThrown(message: string)

  const CouldNotProcess := "I received your message but couldn't process it properly. Please try again."
  const TextError := "Sorry, I encountered an error processing your message."

  /** The bot message a text reply leads to. */
  function TextReply(outcome: TextOutcome): (content: Json)
    ensures outcome.TextBody? && outcome.response.Truthy() ==> content == outcome.response
    ensures outcome.TextBody? && !outcome.response.Truthy() ==> content == Str(CouldNotProcess)
    ensures !outcome.TextBody? ==> content == Str(TextError)
  {
    match outcome
    case TextBody(response) => if response.Truthy() then response else Str(CouldNotProcess)
    case _ => Str(TextError)
  }

  /** The error banner after a failed text request. */
  function TextErrorBanner(outcome: TextOutcome): (banner: Option<string>)
    ensures banner.Some? <==> !outcome.TextBody?
  {
    match outcome
    case TextNotOk(status) => Some("Error: LLM service error: " + NatToString(status))
    case TextBody(_) => None
    case TextThrown(message) => Some("Error: " + message)
  }

  /** `handleTextSubmit`: whitespace-only input is ignored; otherwise the
      trimmed text is appended as a user message, the input is cleared, and
      exactly one bot message follows. */
  function TextSubmit(w: Widget, outcome: TextOutcome): (r: Widget)
    ensures AllSpace(w.input) ==> r == w
    ensures !AllSpace(w.input) ==>
      && r.input == ""
      && r.messages == AddMessage(AddMessage(w.messages, User, Str(Strip(w.input)), false), Bot, TextReply(outcome), false)
      && r.error == TextErrorBanner(outcome).GetOr(w.error)
  {
    StripEmptyIff(w.input);
    var text := Strip(w.input);
    if text == "" then w
    else
      var withUser := AddMessage(w.messages, User, Str(text), false);
      Widget(AddMessage(withUser, Bot, TextReply(outcome), false), "", TextErrorBanner(outcome).GetOr(w.error))
  }

  // ---------------------------------------------------------------------
  // Audio messages

  /** The `llm_response` field of the STT reply: absent (or any falsy
      value), or an object with its `success`, `response` and `error`. */
  datatype LlmField = NoLlm | LlmObject(success: Json, response: Json, error: Json)

  /** What the `fetch` to the STT service's `/transcribe` produced. */
  datatype SttOutcome = SttNotOk(status: nat) | SttBody(text: Json, llm: LlmField) | SttThrown(message: string)

  /** The form part `processAudio` posts the audio under. */
  const UploadField := "audio"

  const NoSpeech := "No speech detected"
  const HeardWithIssue := "I heard you, but encountered an issue: "
  const HeardNoReply := "I heard you, but couldn't generate a response. Please try again."
  const AudioError := "Sorry, I encountered an error processing your audio."

  /** `transcribedText || 'No speech detected'`. */
  function ShownTranscript(text: Json): (shown: Json)
    ensures shown.Truthy()
    ensures text.Truthy() ==> shown == text
  {
    if text.Truthy() then text else Str(NoSpeech)
  }

  /** The bot message chosen from `llm_response`. */
  function AudioReply(llm: LlmField): (content: Json)
    ensures llm.LlmObject? && llm.success.Truthy() ==> content == llm.response
    ensures llm.LlmObject? && !llm.success.Truthy() ==> content == Str(HeardWithIssue + llm.error.Render())
    ensures llm.NoLlm? ==> content == Str(HeardNoReply)
  {
    match llm
    case NoLlm => Str(HeardNoReply)
    case LlmObject(success, response, error) =>
      if success.Truthy() then response else Str(HeardWithIssue + error.Render())
  }

  /** Whether the newest message is the "Recording..." placeholder kind, a
      user audio message. */
  predicate EndsWithUserAudio(messages: seq<Message>) {
    |messages| > 0 && messages[|messages| - 1].role == User && messages[|messages| - 1].isAudio
  }

  /** The `setMessages` update after a recording: the newest message gets
      the transcript when it is a user audio message; otherwise nothing
      changes. */
  function ReplaceLastAudio(messages: seq<Message>, shown: Json): (r: seq<Message>)
    ensures |r| == |messages|
    ensures |messages| > 0 ==> r[..|messages| - 1] == messages[..|messages| - 1]
    ensures EndsWithUserAudio(messages) ==> r[|r| - 1] == Message(User, shown, true)
    ensures !EndsWithUserAudio(messages) ==> r == messages
  {
    if EndsWithUserAudio(messages) then
      messages[..|messages| - 1] + [Message(User, shown, true)]
    else messages
  }

  /** The transcript step of `processAudio`: a recording's placeholder is
      overwritten, an upload's transcript is appended. */
  function WithTranscript(messages: seq<Message>, isRecording: bool, shown: Json): (r: seq<Message>)
    ensures |r| == |messages| + (if isRecording then 0 else 1)
    ensures !isRecording ==> r == AddMessage(messages, User, shown, false)
  {
    if isRecording then ReplaceLastAudio(messages, shown)
    else AddMessage(messages, User, shown, false)
  }

  /** The error banner after a failed audio request. */
  function AudioErrorBanner(outcome: SttOutcome): (banner: Option<string>)
    ensures banner.Some? <==> !outcome.SttBody?
  {
    match outcome
    case SttNotOk(status) => Some("Error: STT service error: " + NatToString(status))
    case SttBody(_, _) => None
    case SttThrown(message) => Some("Error: " + message)
  }

  /** `processAudio`: on a reply, the transcript replaces the recording
      placeholder or is appended after an upload, and then exactly one bot
      message is added; on a failure the transcript step is skipped and the
      fixed error message is added. */
  function ProcessAudio(w: Widget, isRecording: bool, outcome: SttOutcome): (r: Widget)
    ensures r.input == w.input
    ensures r.error == AudioErrorBanner(outcome).GetOr(w.error)
    ensures outcome.SttBody? ==>
      r.messages == AddMessage(WithTranscript(w.messages, isRecording, ShownTranscript(outcome.text)),
                               Bot, AudioReply(outcome.llm), false)
    ensures !outcome.SttBody? ==> r.messages == AddMessage(w.messages, Bot, Str(AudioError), false)
  {
    var error := AudioErrorBanner(outcome).GetOr(w.error);
    match outcome
    case SttBody(text, llm) =>
      var transcribed := WithTranscript(w.messages, isRecording, ShownTranscript(text));
      Widget(AddMessage(transcribed, Bot, AudioReply(llm), false), w.input, error)
    case _ =>
      Widget(AddMessage(w.messages, Bot, Str(AudioError), false), w.input, error)
  }

  /** Whatever the outcome, `processAudio` ends with exactly one new bot
      message, and it adds at most one user message, only for an upload it
      could transcribe. */
  lemma OneBotReplyPerAudio(w: Widget, isRecording: bool, outcome: SttOutcome)
    ensures var r := ProcessAudio(w, isRecording, outcome).messages;
      && |r| == |w.messages| + (if outcome.SttBody? && !isRecording then 2 else 1)
      && r[|r| - 1].role == Bot
      && (forall k :: |w.messages| <= k < |r| - 1 ==> r[k].role == User)
  {
  }

  const MicrophoneDenied := "Could not access microphone. Please check your browser permissions."

  /** `handleStartRecording`: with the microphone granted, the error is
      cleared and the "Recording..." placeholder is added; when
      `getUserMedia` rejects, only the error banner is set. */
  function StartRecording(w: Widget, micGranted: bool): (r: Widget)
    ensures r.input == w.input
    ensures micGranted ==> r.error == "" && r.messages == AddMessage(w.messages, User, Str("Recording..."), true)
    ensures micGranted ==> EndsWithUserAudio(r.messages)
    ensures !micGranted ==> r.error == MicrophoneDenied && r.messages == w.messages
  {
    if micGranted then Widget(AddMessage(w.messages, User, Str("Recording..."), true), w.input, "")
    else Widget(w.messages, w.input, MicrophoneDenied)
  }

  /** A recording that the STT service answers turns its own placeholder
      into the transcript: nothing is appended in its place and earlier
      messages are untouched. */
  lemma PlaceholderIsReplaced(w: Widget, text: Json, llm: LlmField)
    ensures var recorded := ProcessAudio(StartRecording(w, true), true, SttBody(text, llm));
      && |recorded.messages| == |w.messages| + 2
      && recorded.messages[..|w.messages|] == w.messages
      && recorded.messages[|w.messages|] == Message(User, ShownTranscript(text), true)
  {
    var started := StartRecording(w, true).messages;
    assert started[..|started| - 1] == w.messages;
  }

  /** `handleFileUpload`: a non-audio file only sets the error banner; an
      audio file clears it, adds the "Uploaded:" note and is processed as
      an upload. */
  function FileUpload(w: Widget, name: string, mimeType: string, outcome: SttOutcome): (r: Widget)
    ensures !IsAudioType(Some(mimeType)) ==> r == Widget(w.messages, w.input, "Please select an audio file.")
    ensures IsAudioType(Some(mimeType)) ==>
      var noted := AddMessage(w.messages, User, Str("Uploaded: " + name), true);
      r == ProcessAudio(Widget(noted, w.input, ""), false, outcome)
  {
    if !StartsWith(mimeType, "audio/") then Widget(w.messages, w.input, "Please select an audio file.")
    else ProcessAudio(Widget(AddMessage(w.messages, User, Str("Uploaded: " + name), true), w.input, ""), false, outcome)
  }
}
