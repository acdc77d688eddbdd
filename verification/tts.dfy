/** `services/tts-service/main.py`: the text-to-speech service. A request
    names an engine; "gtts" goes to Google TTS and every other value to the
    offline pyttsx3 engine, which first picks a voice by substring match. */
module Tts {
  import opened Base
  import opened Strings
  import opened FastApi

  /** A field of the JSON body as pydantic sees it: missing, `null`, or a
      string. */
  datatype Field = Absent | NullValue | Value(s: string)

  datatype TextToSpeechRequest = TextToSpeechRequest(
    text: string, voice: Option<string>, language: Option<string>, engine: Option<string>)

  /** A missing field takes its declared default; `null` stays `None`. */
  function WithDefault(f: Field, default: string): (r: Option<string>)
    ensures f.Absent? ==> r == Some(default)
    ensures f.NullValue? ==> r.None?
    ensures f.Value? ==> r == Some(f.s)
  {
    match f
    case Absent => Some(default)
    case NullValue => None
    case Value(s) => Some(s)
  }

  /** The model `TextToSpeechRequest`: voice "default", language "en" and
      engine "pyttsx3" unless given. */
  function NewRequest(text: string, voice: Field, language: Field, engine: Field): (r: TextToSpeechRequest)
    ensures r.text == text
    ensures voice.Absent? ==> r.voice == Some("default")
    ensures language.Absent? ==> r.language == Some("en")
    ensures engine.Absent? ==> r.engine == Some("pyttsx3")
  {
    TextToSpeechRequest(text, WithDefault(voice, "default"), WithDefault(language, "en"), WithDefault(engine, "pyttsx3"))
  }

  datatype Engine = Gtts | Pyttsx3

  /** `if request.engine == "gtts" ... else ...`. */
  function EngineFor(r: TextToSpeechRequest): (e: Engine)
    ensures e == Gtts <==> r.engine == Some("gtts")
  {
    if r.engine == Some("gtts") then Gtts else Pyttsx3
  }

  /** One installed pyttsx3 voice. */
  datatype Voice = Voice(id: string, name: string)

  predicate Matches(v: Voice, wanted: string) {
    Contains(v.name, wanted) || Contains(v.id, wanted)
  }

  /** Reference definition: the position of the first voice whose name or
      id contains `wanted`. */
  function FirstMatch(voices: seq<Voice>, wanted: string): (k: Option<nat>)
    ensures k.Some? ==> k.value < |voices| && Matches(voices[k.value], wanted)
    ensures k.Some? ==> forall j :: 0 <= j < k.value ==> !Matches(voices[j], wanted)
    ensures k.None? ==> forall j :: 0 <= j < |voices| ==> !Matches(voices[j], wanted)
  {
    if |voices| == 0 then None
    else if Matches(voices[0], wanted) then Some(0)
    else
      match FirstMatch(voices[1..], wanted)
      case None => None
      case Some(k) => Some(k + 1)
  }

  /** The voice loop of `_speak_pyttsx3`: the id of the first voice whose
      name or id contains the requested string, then `break`; `None` when
      no voice matches, so the engine's voice is left unchanged. */
  method SelectVoice(wanted: string, voices: seq<Voice>) returns (chosen: Option<string>)
    ensures chosen.None? <==> forall j :: 0 <= j < |voices| ==> !Matches(voices[j], wanted)
    ensures chosen.Some? ==> exists k ::
      && 0 <= k < |voices| && Matches(voices[k], wanted) && chosen.value == voices[k].id
      && (forall j :: 0 <= j < k ==> !Matches(voices[j], wanted))
    ensures chosen == (match FirstMatch(voices, wanted)
                       case Some(k) => Some(voices[k].id)
                       case None => None)
  {
    chosen := None;
    var i := 0;
    while i < |voices|
      invariant 0 <= i <= |voices|
      invariant forall j :: 0 <= j < i ==> !Matches(voices[j], wanted)
    {
      if Matches(voices[i], wanted) {
        chosen := Some(voices[i].id);
        return;
      }
      i := i + 1;
    }
  }

  /** What a synthesis step (`gTTS(...).save` or pyttsx3's `save_to_file`
      and `runAndWait`) does. */
  datatype Synthesis = Saved | SynthesisRaised(message: string)

  /** The pyttsx3 engine: `pyttsx3.init()` raises, or gives an engine with
      its installed voices, its current voice and what synthesis does. */
  datatype Pyttsx3Engine =
    | InitRaised(message: string)
    | Ready(voices: seq<Voice>, currentVoice: string, synthesis: Synthesis)

  /** Python's `TypeError` text for `None in some_string`. */
  const NoneInString := "'in <string>' requires string as left operand, not NoneType"

  /** The voice pyttsx3 speaks with: unchanged for "default", else the first
      match (unchanged when none matches); `None` in the voice field is an
      error as soon as there is a voice to compare it with. */
  function VoiceFor(requested: Option<string>, voices: seq<Voice>, current: string): (r: Result<string>)
    ensures requested == Some("default") ==> r == Ok(current)
    ensures requested.None? ==> (r.Err? <==> |voices| > 0)
    ensures requested.Some? && requested != Some("default") ==>
      r.Ok? && r.value == (match FirstMatch(voices, requested.value)
                           case Some(k) => voices[k].id
                           case None => current)
  {
    match requested
    case None => if |voices| == 0 then Ok(current) else Err(NoneInString)
    case Some(w) =>
      if w == "default" then Ok(current)
      else match FirstMatch(voices, w)
        case Some(k) => Ok(voices[k].id)
        case None => Ok(current)
  }

  datatype Result<T> = Ok(value: T) | Err(message: string)

  datatype Reply =
    | AudioFile(mediaType: string, filename: string)
    | HttpError(status: nat, detail: string)

  /** The reply and, for pyttsx3, the voice the engine spoke with. */
  datatype Handled = Handled(reply: Reply, engine: Engine, voice: Option<string>)

  /** An engine failure: the engine's own 500 re-raised by the outer handler
      as "TTS failed: ...". */
  function EngineFailed(engineDetail: string): (r: Reply)
    ensures r.HttpError? && r.status == 500
    ensures StartsWith(r.detail, "TTS failed: 500: ")
    ensures r.detail[|"TTS failed: 500: "|..] == engineDetail
  {
    assert NatToString(500) == "500";
    HttpError(500, "TTS failed: " + HttpExceptionText(500, engineDetail))
  }

  /** `_speak_pyttsx3` once `pyttsx3.init()` has given an engine: the voice
      step, then `save_to_file`; a failure of either is the engine's 500. */
  function SpeakReady(request: TextToSpeechRequest, voices: seq<Voice>, current: string, synthesis: Synthesis): (h: Handled)
    ensures h.engine == Pyttsx3
    ensures VoiceFor(request.voice, voices, current).Err? ==>
      h == Handled(EngineFailed("pyttsx3 failed: " + VoiceFor(request.voice, voices, current).message), Pyttsx3, None)
    ensures VoiceFor(request.voice, voices, current).Ok? ==>
      h.voice == Some(VoiceFor(request.voice, voices, current).value)
    ensures VoiceFor(request.voice, voices, current).Ok? && synthesis.Saved? ==>
      h.reply == AudioFile("audio/wav", "speech.wav")
    ensures synthesis.SynthesisRaised? ==> h.reply.HttpError?
    ensures VoiceFor(request.voice, voices, current).Ok? && synthesis.SynthesisRaised? ==>
      h.reply == EngineFailed("pyttsx3 failed: " + synthesis.message)
  {
    match VoiceFor(request.voice, voices, current)
    case Err(msg) => Handled(EngineFailed("pyttsx3 failed: " + msg), Pyttsx3, None)
    case Ok(voice) =>
      match synthesis
      case Saved => Handled(AudioFile("audio/wav", "speech.wav"), Pyttsx3, Some(voice))
      case SynthesisRaised(msg) => Handled(EngineFailed("pyttsx3 failed: " + msg), Pyttsx3, Some(voice))
  }

  /** `POST /speak`. `gtts` is what the gTTS call would do and `pyttsx3` the
      state of the offline engine. */
  function Speak(request: TextToSpeechRequest, gtts: Synthesis, pyttsx3: Pyttsx3Engine): (h: Handled)
    ensures h.engine == EngineFor(request)
    ensures h.engine == Gtts ==>
      h.voice.None? && h.reply == (if gtts.Saved? then AudioFile("audio/mpeg", "speech.mp3")
                  else EngineFailed("gTTS failed: " + gtts.message))
    ensures h.engine == Pyttsx3 && h.reply.AudioFile? ==>
      h.reply == AudioFile("audio/wav", "speech.wav") && pyttsx3.Ready? && pyttsx3.synthesis.Saved?
      && h.voice.Some? && VoiceFor(request.voice, pyttsx3.voices, pyttsx3.currentVoice) == Ok(h.voice.value)
    // Conversely, a ready engine, a usable voice field and a saved file
    // always give `speech.wav`; each failure carries its exception text.
    ensures h.engine == Pyttsx3 && pyttsx3.InitRaised? ==>
      h == Handled(EngineFailed("pyttsx3 failed: " + pyttsx3.message), Pyttsx3, None)
    ensures h.engine == Pyttsx3 && pyttsx3.Ready? ==>
      h == SpeakReady(request, pyttsx3.voices, pyttsx3.currentVoice, pyttsx3.synthesis)
    ensures h.reply.HttpError? ==> h.reply.status == 500 && StartsWith(h.reply.detail, "TTS failed: 500: ")
  {
    match EngineFor(request)
    case Gtts =>
      var reply := match gtts
        case Saved => AudioFile("audio/mpeg", "speech.mp3")
        case SynthesisRaised(msg) => EngineFailed("gTTS failed: " + msg);
      Handled(reply, Gtts, None)
    case Pyttsx3 =>
      match pyttsx3
      case InitRaised(msg) => Handled(EngineFailed("pyttsx3 failed: " + msg), Pyttsx3, None)
      case Ready(voices, current, synthesis) => SpeakReady(request, voices, current, synthesis)
  }
}
