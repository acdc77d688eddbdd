/** How the pieces meet: what the chat widget makes of each STT service's
    reply, and what the Whisper service makes of the uploads the gateway
    forwards. */
module Pipelines {
  import opened Base
  import opened Strings
  import opened FastApi
  import SttService
  import SttMain
  import opened ChatBot
  import opened FrontendApp
  import BackendIndex
  import WhisperMain
  import opened LazyModel
  import opened WhisperApi
  import opened Health
  import SpeechApi

  /** A reply of `stt_service.py` as the widget reads it: a 200 whose
      `text` field is a string and which has no `llm_response`. */
  function FromSttService(reply: SttService.Reply): (o: SttOutcome)
    ensures o.SttBody? && o.text == Str(reply.text) && o.llm.NoLlm?
  {
    SttBody(Str(reply.text), NoLlm)
  }

  /** With `stt_service.py` behind it, the widget never shows an LLM answer
      for audio: the bot always says it could not generate one, and an
      unsuccessful recognition is shown as "No speech detected". */
  lemma SttServiceNeverAnswers(w: Widget, isRecording: bool, client: Option<SpeechApi.Client>, contentType: Option<string>)
    ensures var reply := SttService.Transcribe(client, contentType).reply;
      var r := ProcessAudio(w, isRecording, FromSttService(reply)).messages;
      && r[|r| - 1] == Message(Bot, Str(HeardNoReply), false)
      && (client.Some? && reply.status != Some(SttService.Success) ==> ShownTranscript(Str(reply.text)) == Str(NoSpeech))
  {
  }

  /** A request to the STT service's `main.py` as the widget reads it. A
      form without the part the handler declares is answered 422 by FastAPI
      before the handler runs; otherwise `reply` is the handler's answer,
      and a success carries `transcription`, not `text`, so `text` is
      undefined, while an `HTTPException` is a non-2xx status. */
  function FromSttMain(field: string, reply: SttMain.Reply): (o: SttOutcome)
    ensures field != SttMain.FileField ==> o == SttNotOk(UnprocessableEntity)
    ensures field == SttMain.FileField && reply.Transcribed? ==> o == SttBody(Undefined, NoLlm)
    ensures field == SttMain.FileField && reply.HttpError? ==> o == SttNotOk(reply.status)
  {
    if field != SttMain.FileField then SttNotOk(UnprocessableEntity)
    else match reply
      case Transcribed(_, _, _, _) => SttBody(Undefined, NoLlm)
      case HttpError(status, _) => SttNotOk(status)
  }

  /** With `main.py` behind it, no recording or upload of the widget reaches
      the handler: the widget posts its audio under `audio`, the handler
      declares `file`, so every attempt ends with the 422 banner and the
      fixed error message, and no transcript is shown. */
  lemma SttMainRejectsWidgetAudio(w: Widget, isRecording: bool, reply: SttMain.Reply)
    ensures var r := ProcessAudio(w, isRecording, FromSttMain(UploadField, reply));
      && r.error == "Error: STT service error: 422"
      && r.messages == AddMessage(w.messages, Bot, Str(AudioError), false)
  {
  }

  /** A request to the Whisper service's `main.py` as the widget reads it:
      without the declared `file` part FastAPI answers 422; otherwise a
      success carries `transcription`, not `text`, and an `HTTPException`
      is a non-2xx status. */
  function FromWhisperMain(field: string, reply: WhisperMain.Reply): (o: SttOutcome)
    ensures field != WhisperMain.FileField ==> o == SttNotOk(UnprocessableEntity)
    ensures field == WhisperMain.FileField && reply.Transcribed? ==> o == SttBody(Undefined, NoLlm)
    ensures field == WhisperMain.FileField && reply.HttpError? ==> o == SttNotOk(reply.status)
  {
    if field != WhisperMain.FileField then SttNotOk(UnprocessableEntity)
    else match reply
      case Transcribed(_, _, _) => SttBody(Undefined, NoLlm)
      case HttpError(status, _) => SttNotOk(status)
  }

  /** The Whisper service on the same port treats the widget alike: its
      `audio` part never reaches the handler, and every attempt ends with
      the 422 banner and the fixed error message. */
  lemma WhisperMainRejectsWidgetAudio(w: Widget, isRecording: bool, reply: WhisperMain.Reply)
    ensures var r := ProcessAudio(w, isRecording, FromWhisperMain(UploadField, reply));
      && r.error == "Error: STT service error: 422"
      && r.messages == AddMessage(w.messages, Bot, Str(AudioError), false)
  {
  }

  /** Every upload the gateway forwards gets past the Whisper service's
      content-type check: the service goes on to load its model rather
      than refusing the file. */
  lemma GatewayUploadsReachWhisperModel(part: Option<BackendIndex.Part>, whisper: PeerOutcome,
                                        slot: Option<WhisperModel>, loader: LoadOutcome<WhisperModel>,
                                        outcome: WhisperApi.TranscribeOutcome)
    requires BackendIndex.Transcribe(part, whisper).sent.Some?
    ensures var forwarded := BackendIndex.Transcribe(part, whisper).sent.value;
      var h := WhisperMain.Transcribe(slot, loader, Some(forwarded.contentType), outcome);
      && h.slot == WhisperMain.LoadModel(slot, loader).slot
      && h.loaderCalled == slot.None?
      && (h.sent.Some? <==> h.slot.Some?)
  {
  }
}
