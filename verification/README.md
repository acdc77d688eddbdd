# Healthcare voice assistant — a Dafny model of its request logic

The healthcare voice assistant has a browser front end and two Node gateways. Behind them sit a set of small services:

- speech-to-text services, one on Google Cloud Speech and two on a local Whisper model;
- a rule-based LLM service and an Ollama-backed LLM service;
- a MedGemma inference helper;
- a text-to-speech service.

This project models the decision logic of each of these pieces as pure Dafny functions and proves what each promises. That logic covers:

- which requests are refused and with which status and message;
- which recognition or synthesis configuration is chosen;
- how a collaborator's answer is shaped into the reply;
- what happens when a collaborator fails;
- how the two chat front ends update their message lists.

Every collaborator becomes a plain value: the Google recogniser, Whisper, Ollama, the transformers pipeline, gTTS, pyttsx3, and the HTTP peers the gateways and pages call. The value is that collaborator's answer to the one call the handler would make. Handlers return their reply together with what they sent, so "no call was made" is a field equal to `None`.

Module layout, following the repository:

| module | file of the system |
|---|---|
| `Strings`, `Base`, `FastApi` | string operations (Python `strip`, `in`, `replace`; JavaScript `trim`, `includes`, `split`, `join`), JSON fields as JavaScript sees them, FastAPI's `HTTPException` text |
| `SpeechApi`, `SttService`, `SttMain` | `services/stt-service/stt_service.py`, `services/stt-service/main.py` |
| `LazyModel`, `WhisperApi`, `WhisperMain`, `WhisperSimple` | `services/whisper-service/main.py`, `services/whisper-service/simple_service.py` |
| `LlmIndex`, `LlmApp`, `MedGemma` | `services/llm-service/index.js`, `services/llm-service/app.js`, `services/llm-service/medgemma_inference.py` |
| `Tts` | `services/tts-service/main.py` |
| `Health`, `BackendServer`, `BackendIndex` | `backend/server.js`, `backend/index.js` |
| `FrontendApp`, `ChatBot` | `frontend/pages/app/index.tsx`, `frontend/components/ChatBot.tsx` |
| `Pipelines` | how the chat widget reads each STT service, and how the Whisper service treats what the gateway forwards |

How the services fit together:

- **Speech recognition.** `stt_service.py` makes a single `recognize` call with one configuration and returns. It does not try other configurations, and it does not forward the transcript to an LLM service.
- **ChatBot and the STT services.** `ChatBot.tsx` reads an `llm_response` field that neither STT service produces. `Pipelines.SttServiceNeverAnswers` proves the consequence: with `stt_service.py` behind it, the widget always answers audio with "I heard you, but couldn't generate a response."
- **ChatBot and `main.py`.** `ChatBot.tsx` posts its audio under the form part `audio`, but `main.py` declares `file`, so FastAPI answers every widget request with 422 before the handler runs. `Pipelines.SttMainRejectsWidgetAudio` proves that with `main.py` behind it, every recording and upload ends with "Error: STT service error: 422" and the fixed error message, and no transcript is shown. (Were the part named `file`, a success would still lack `text`: it carries `transcription`.) The Whisper services listen on the same port and declare the same `file` part; `Pipelines.WhisperMainRejectsWidgetAudio` proves the same outcome behind `whisper-service/main.py`.

Conventions:

- JSON request fields are `Json = Undefined | Null | Str | Other`. This captures JavaScript truthiness and destructuring defaults, which replace only `undefined`. It also captures the `TypeError` that `.substring` or `.toLowerCase` throws on a non-string, which the handlers' `catch` turns into a 500.
- FastAPI's `HTTPException(400)` raised inside a `try … except Exception` is caught again and re-raised as a 500. The detail then reads "Transcription failed: 400: File must be an audio file". The model reproduces that text.
- Confidences are exact `real` literals; no arithmetic is done on them.

## Model

| member | source | states |
|---|---|---|
| Strings.ContainsIff | services/llm-service/index.js:27-28 | the suffix scan used for `includes`/`in` finds `t` exactly when `t` occurs at some offset of `s` |
| Strings.ContainsInfix | services/llm-service/app.js:87 | a string built as `a + t + b` contains `t`, which is how an interpolated message is found in a reply |
| Strings.Strip | services/stt-service/main.py:104 | `strip()`/`trim()` returns a window of the input that neither starts nor ends with whitespace, with only whitespace outside it |
| Strings.StripUnique | services/whisper-service/main.py:77 | the strip specification has exactly one solution, the one `Strip` returns |
| Strings.StripIdempotent | frontend/pages/app/index.tsx:126-127 | stripping an already stripped string changes nothing |
| Strings.StripEmptyIff | frontend/pages/app/index.tsx:126 | a string strips to "" exactly when every character is whitespace, which is when the page refuses to send |
| Strings.StripKeepsTrimmed | services/whisper-service/main.py:77 | text with no leading or trailing whitespace is returned unchanged |
| Strings.StripIgnoresTrailingSpace | services/stt-service/main.py:102-104 | whitespace appended after a string is removed again by stripping |
| Strings.RemoveAll | services/llm-service/medgemma_inference.py:98 | `replace(p, "")` never lengthens the text |
| Strings.RemoveAllAbsent | services/llm-service/medgemma_inference.py:98 | a text that does not contain the pattern is left unchanged |
| Strings.RemoveAllPrefix | services/llm-service/medgemma_inference.py:98 | an occurrence at the start is deleted and the scan resumes after it |
| Strings.Split | frontend/pages/app/index.tsx:39 | `split('/')` always yields at least one piece, and no piece contains the separator |
| Strings.JoinSplit | frontend/pages/app/index.tsx:39 | joining the pieces of a split with the separator gives back the original string |
| Strings.SplitJoin | frontend/pages/app/index.tsx:82-85 | splitting a join of separator-free pieces gives back the pieces |
| Strings.NatToString | frontend/pages/app/index.tsx:99 | a status rendered into a message is a run of decimal digits whose value is the status, with no leading zero except for 0 itself |
| Strings.NatToStringInjective | frontend/pages/app/index.tsx:99 | different statuses render as different texts |
| FastApi.HttpExceptionText | services/stt-service/main.py:117-122 | the text of a re-caught `HTTPException` begins with its status code, ": " and then its detail |
| SttService.SelectConfig | services/stt-service/stt_service.py:94-107 | the encoding is LINEAR16 exactly when the type mentions "wav"; it is MP3 exactly when the type mentions "mp3" and not "wav"; otherwise it is WEBM_OPUS. The rate is 16000 exactly for wav and 48000 otherwise. Nothing else differs from the default config |
| SttService.Transcribe | services/stt-service/stt_service.py:80-143 | without a client the reply is the mock and no call is made; with a client there is exactly one call with the selected config; the reply is a success exactly when there is a first alternative, and then carries its text and confidence; an empty result list gives no_speech; any exception gives an error carrying its message |
| SttService.OnlyFirstResultUsed | services/stt-service/stt_service.py:114-118 | results after the first never change the reply |
| SttService.WavCheckedBeforeMp3 | services/stt-service/stt_service.py:103-107 | a type mentioning both "wav" and "mp3" is treated as wav |
| SttMain.ConfigFor | services/stt-service/main.py:74-93 | the encoding comes from the exact-match table, with LINEAR16 for any other audio type; the rate is 16000 for every type |
| SttMain.ConcatenatedIsJoin | services/stt-service/main.py:100-102 | the loop's accumulated text is the first transcripts joined by single spaces, plus one trailing space |
| SttMain.Transcribe | services/stt-service/main.py:57-122 | a missing or non-audio type is refused before any client is made, as a 500 that wraps the 400; a client setup failure, a recogniser exception and a result without alternatives are 500s whose detail is "Transcription failed: " followed by that exception's text; a success has language "en-US" and the first alternative's confidence, or 0 with no results |
| SttMain.TranscriptionIsStrippedJoin | services/stt-service/main.py:100-104 | the transcription is the stripped space-join of every result's first transcript |
| LazyModel.Load | services/whisper-service/main.py:27-33 | the loader runs exactly when no model is held; a held model is returned as is; a failed load leaves the slot empty |
| LazyModel.HeldModelIsReused | services/whisper-service/main.py:29 | once a model is held, every later request reuses it without loading |
| LazyModel.NoInitialisationWhenHeld | services/whisper-service/simple_service.py:29 | a process that starts with a model never loads again |
| LazyModel.LoadsAtMostOnce | services/whisper-service/main.py:25-33 | across any run of requests the model is loaded at most once, and every request that gets a model gets the same one |
| WhisperMain.Extension | services/whisper-service/main.py:56-63 | the extension is the table entry for the type, or ".wav" when the type is not in the table |
| WhisperMain.Duration | services/whisper-service/main.py:86 | the duration is the first segment's end (0 when it has none), and 0 when there are no segments |
| WhisperMain.LoadModel | services/whisper-service/main.py:27-33 | the loader runs exactly when no model is held and its outcome is returned; a loaded model is kept, and a failed load leaves no model |
| WhisperMain.Transcribe | services/whisper-service/main.py:45-100 | a non-audio type is refused before the model is loaded; Whisper runs exactly when the type is audio and a model is available, on a file with the mapped extension; the text is stripped and the language defaults to "unknown"; a failed load or a Whisper exception is a 500 "Transcription failed: " followed by that exception's text |
| WhisperSimple.Extension | services/whisper-service/simple_service.py:59-67 | the extension is the entry of the six-entry table, or ".wav" |
| WhisperSimple.ExtensionTablesAgreeExceptOpus | services/whisper-service/simple_service.py:59-67 | the two Whisper services pick the same extension for every type except "audio/webm;codecs=opus" (".webm" here, ".wav" in `main.py`) |
| WhisperSimple.LoadModel | services/whisper-service/simple_service.py:27-35 | this service's `load_model` behaves exactly as `main.py`'s on every handle and loader outcome |
| WhisperSimple.Transcribe | services/whisper-service/simple_service.py:48-109 | same refusal, loading and stripping rules as `main.py`, with no duration in the reply; a failed load or a Whisper exception is a 500 "Transcription failed: " followed by that exception's text |
| WhisperSimple.AgreesWithMain | services/whisper-service/simple_service.py:48-109 | both services refuse the same uploads with the same detail, load the model in the same cases and call Whisper in the same cases |
| LlmIndex.Classify | services/llm-service/index.js:23-73 | the chosen category mentions one of its keywords, unless it is the default, and no category tested earlier does |
| LlmIndex.ClassifyIsHighestMatch | services/llm-service/index.js:27-73 | any category that matches while no higher-priority category does is the one chosen |
| LlmIndex.SymptomTopic | services/llm-service/index.js:40-42 | the topic named is the first of headache, fever and cough that the query mentions, otherwise pain |
| LlmIndex.GenerateHealthcareResponse | services/llm-service/index.js:23-74 | each reply type is chosen exactly when its keyword group is the first to match, with that type's fixed reply text and confidence |
| LlmIndex.CaseInsensitive | services/llm-service/index.js:24 | a query and its lower-cased form get the same answer |
| LlmIndex.EmergencyBeatsSymptoms | services/llm-service/index.js:27-38 | a query mentioning "chest pain" is an emergency even though it also mentions "pain" |
| LlmIndex.Chat | services/llm-service/index.js:86-124 | a falsy message is a 400 "Message is required"; a string message gets the classified answer with the disclaimer; a non-string truthy message is a 500 "Internal server error" carrying the thrown error's message |
| LlmApp.HealthcarePrompt | services/llm-service/app.js:63 | the prompt starts with the fixed healthcare prefix and the rest of it is exactly the message |
| LlmApp.FallbackReply | services/llm-service/app.js:87 | the fallback reply contains the message in double quotes |
| LlmApp.Chat | services/llm-service/app.js:49-101 | a falsy message is a 400 and a non-string one a 500 "Chat request failed" carrying the thrown error's message, both without calling Ollama; a string message is always sent wrapped in the prompt, and answered with Ollama's text (type ollama, confidence 0.9) or with the quoting fallback (type fallback, confidence 0.5) |
| MedGemma.PromptRoundTrip | services/llm-service/medgemma_inference.py:79-83 | the question can be read back out of the template |
| MedGemma.GenerateResponse | services/llm-service/medgemma_inference.py:69-112 | without a model the result is "Model not loaded" and nothing is generated; otherwise the template is sent; the reply succeeds exactly when generation does, with the template removed and the text stripped; an exception becomes a failure carrying its message |
| MedGemma.EchoedPromptIsRemoved | services/llm-service/medgemma_inference.py:95-98 | when the model echoes the template and continues it, the reply is the stripped continuation |
| Tts.WithDefault | services/tts-service/main.py:29-33 | a missing field takes its default; `null` stays `None` |
| Tts.NewRequest | services/tts-service/main.py:29-33 | the request defaults are voice "default", language "en" and engine "pyttsx3" |
| Tts.EngineFor | services/tts-service/main.py:82-85 | gTTS is used exactly when the engine is "gtts"; every other value goes to pyttsx3 |
| Tts.FirstMatch | services/tts-service/main.py:127-130 | the index found is of a voice whose name or id contains the request, and no earlier voice matches; none is found only when no voice matches |
| Tts.SelectVoice | services/tts-service/main.py:125-130 | the loop picks the id of the first matching voice and stops, or leaves the voice unchanged when none matches |
| Tts.VoiceFor | services/tts-service/main.py:124-130 | "default" keeps the current voice; another string picks the first match or keeps the current voice; `None` fails as soon as there is a voice to compare it with |
| Tts.EngineFailed | services/tts-service/main.py:87-89 | an engine's 500 re-raised by the outer handler: a 500 whose detail is "TTS failed: 500: " followed by the engine's detail |
| Tts.SpeakReady | services/tts-service/main.py:113-150 | with an engine, a voice field that selects a voice and a saved file give speech.wav spoken with that voice; a voice error or a synthesis error is "pyttsx3 failed: " with its text |
| Tts.Speak | services/tts-service/main.py:74-150 | gTTS answers with speech.mp3 or "gTTS failed: " with its error; pyttsx3 answers with speech.wav exactly when init, voice selection and synthesis all succeed, and otherwise with "pyttsx3 failed: " and the error's text; every failure is a 500 "TTS failed: 500: …" |
| Health.EntryFor | backend/server.js:186-200 | an entry is healthy exactly when its probe succeeded and then records the reply body, otherwise it records the error's message; it carries the URL only where the gateway reports it |
| Health.Names | backend/server.js:186-189 | every listed service's name is a key |
| Health.NamesIff | backend/server.js:186-201 | a name is a key exactly when some listed service carries it |
| Health.Aggregate | backend/server.js:184-201 | the keys are exactly the service names, and each name maps to the entry of the last service with that name |
| BackendServer.Transcribe | backend/server.js:22-74 | a missing file is a 400; a file under a field other than `audio` ("Unexpected field") and then a file over 20 MiB are refused by multer with a 500 before the handler runs; any other upload gets the mock transcription echoing its size and name, and no STT call is made |
| BackendServer.ChatFallback | backend/server.js:113 | the fallback reply quotes the message |
| BackendServer.Chat | backend/server.js:87-128 | a falsy message is a 400 and nothing is forwarded; otherwise the message and context are forwarded, the LLM's body is passed through unchanged, and a failure gets the quoting fallback with type fallback and confidence 0.5 |
| BackendServer.Speak | backend/server.js:131-174 | falsy text is a 400 and non-string text a 500 "TTS request failed" carrying the thrown error's message, neither forwarded; string text is forwarded with voice and language defaulted only when missing, and is answered with success whether the TTS call works or not |
| BackendServer.ServicesStatus | backend/server.js:177-208 | the status has exactly the keys stt, tts and llm, each healthy exactly when its probe succeeded and carrying its URL; overall success is always true |
| BackendIndex.MiddlewareError | backend/index.js:128-135 | a parsing error reaches the client as a 500 carrying the error's message |
| BackendIndex.Transcribe | backend/index.js:18-86 | uploads are checked in order: a file under a field other than `audio` is refused by multer as "Unexpected field", a non-audio type is refused by the filter, a file over 10 MiB is refused, and a missing file gets a 400. Only an upload passing all four is forwarded, with its name and type. Whisper's body is passed through, and a failure is a 500 "Transcription failed" with the message |
| BackendIndex.ForwardedUploadsAreAudio | backend/index.js:23-29 | every forwarded upload passes the Whisper services' audio test |
| BackendIndex.ServicesStatus | backend/index.js:89-125 | the status has exactly the key whisper, without a URL |
| FrontendApp.Window | frontend/pages/app/index.tsx:82-83 | the window is the last six messages, or all of them when fewer |
| FrontendApp.ContextEmptyIff | frontend/pages/app/index.tsx:82-85 | the context is empty exactly when there is no history |
| FrontendApp.ContextIgnoresOlder | frontend/pages/app/index.tsx:82-83 | messages older than the last six never reach the context |
| FrontendApp.ContextLinesRoundTrip | frontend/pages/app/index.tsx:82-85 | when no message contains a line break, the context splits back into one "User: "/"Assistant: " line per windowed message |
| FrontendApp.Failure | frontend/pages/app/index.tsx:98-113 | the send fails exactly when the reply is not a successful body; the reason is the status, the reply's error or "LLM response failed", or the thrown message |
| FrontendApp.BotReply | frontend/pages/app/index.tsx:104-119 | the bot message is the response on success, and otherwise "Sorry, I encountered an error: " followed by the reason |
| FrontendApp.SendToLlm | frontend/pages/app/index.tsx:74-123 | a send appends the user message and then exactly one bot message, leaves earlier messages unchanged, and sends the context of the history as it was before the send |
| FrontendApp.HandleSendMessage | frontend/pages/app/index.tsx:125-129 | whitespace-only input sends nothing and changes nothing; any other input sends its stripped form with the context of the history before it, and clears the input box |
| FrontendApp.PaddingIsNotSent | frontend/pages/app/index.tsx:126-127 | trailing whitespace typed after a message does not change what is sent |
| FrontendApp.ValidateUpload | frontend/pages/app/index.tsx:235-249 | a file is accepted exactly when its type is audio and its size is at most 20 MiB; the type is checked first |
| FrontendApp.RecorderMime | frontend/pages/app/index.tsx:184-190 | the result is "audio/wav" exactly when none of the three preferred formats is supported, and otherwise a supported format |
| FrontendApp.RecorderMimeIsFirstSupported | frontend/pages/app/index.tsx:184-190 | the nested conditional is the first supported entry of the preference list, with wav as the fallback |
| FrontendApp.Extension | frontend/pages/app/index.tsx:39 | the extension is never empty and never contains "/" |
| FrontendApp.ExtensionIsSubtype | frontend/pages/app/index.tsx:39 | for `type/subtype` the extension is the subtype, or "wav" when the subtype is empty or absent |
| FrontendApp.TranscribeAudio | frontend/pages/app/index.tsx:29-72 | a transcription is shown and sent to the LLM exactly when the reply is a successful body; every failure raises one "Failed to transcribe audio: " alert and sends nothing, whose reason is the status and status text of a non-2xx reply, the body's `error` or "Transcription failed", or the thrown message |
| ChatBot.AddMessage | frontend/components/ChatBot.tsx:39-48 | one message is appended at the end, and earlier messages are unchanged |
| ChatBot.TextReply | frontend/components/ChatBot.tsx:133-143 | a truthy response is shown; a falsy one gives the "couldn't process" message; a failed request gives the fixed error message |
| ChatBot.TextSubmit | frontend/components/ChatBot.tsx:106-146 | whitespace-only text changes nothing; otherwise the stripped text and then exactly one bot message are appended, and the input is cleared |
| ChatBot.ShownTranscript | frontend/components/ChatBot.tsx:172 | the shown transcript is always truthy: the transcript itself, or "No speech detected" |
| ChatBot.AudioReply | frontend/components/ChatBot.tsx:184-191 | a successful `llm_response` is shown; an unsuccessful one gives "I heard you, but encountered an issue: " and its error; an absent one gives the "couldn't generate" message |
| ChatBot.ReplaceLastAudio | frontend/components/ChatBot.tsx:167-175 | only a last message that is a user audio message is overwritten, and nothing else changes |
| ChatBot.ProcessAudio | frontend/components/ChatBot.tsx:148-199 | on a reply, the transcript replaces the recording placeholder (or is appended for an upload), and then one bot reply is added; on a failure only the fixed error message is added and the error banner is set |
| ChatBot.StartRecording | frontend/components/ChatBot.tsx:51-81 | with the microphone granted, starting clears the error and adds a "Recording..." user audio message; when access is refused only the microphone error is shown |
| ChatBot.PlaceholderIsReplaced | frontend/components/ChatBot.tsx:66-76 | after a recording is answered, its placeholder holds the transcript, earlier messages are untouched, and only the bot reply follows |
| ChatBot.FileUpload | frontend/components/ChatBot.tsx:91-104 | a non-audio file only sets the error and sends nothing; an audio file adds an "Uploaded: " note and is processed as an upload |
| Pipelines.FromSttService | services/stt-service/stt_service.py:122-143 | a reply from `stt_service.py` reaches the widget with its text and no `llm_response` |
| Pipelines.SttServiceNeverAnswers | frontend/components/ChatBot.tsx:184-191 | behind `stt_service.py`, the widget's reply to audio is always the "couldn't generate" message, and a failed recognition shows "No speech detected" |
| Pipelines.FromSttMain | services/stt-service/main.py:52-122 | a form without the `file` part is answered 422 before the handler runs; otherwise a success has no `text` field and an exception is a non-2xx status |
| Pipelines.FromWhisperMain | services/whisper-service/main.py:40-100 | a form without the `file` part is answered 422 before the handler runs; otherwise a success has no `text` field and an exception is a non-2xx status |
| Pipelines.WhisperMainRejectsWidgetAudio | frontend/components/ChatBot.tsx:150-196 | behind `whisper-service/main.py`, every recording and upload of the widget ends with "Error: STT service error: 422" and the fixed error message |
| Pipelines.SttMainRejectsWidgetAudio | frontend/components/ChatBot.tsx:150-196 | behind `main.py`, every recording and upload of the widget ends with "Error: STT service error: 422" and the fixed error message, and no transcript is shown |
| Pipelines.GatewayUploadsReachWhisperModel | backend/index.js:23-29 | every upload the gateway forwards gets past Whisper's type check, and Whisper goes on to load its model |

## Left out

- Credentials, client construction and environment variables: `get_speech_client`, the HF token check, CUDA detection and the `OLLAMA_URL`/`OLLAMA_MODEL` settings. These are inputs here: a client, or a setup failure, is a parameter.
- Temporary files, reading the upload, and clean-up in `finally`. They do not change any reply.
- CORS, helmet, morgan and compression middleware, request logging, timestamps and timing fields such as `processing_time`, and the request timeouts. A timeout is just one way a peer call fails.
- Whitespace other than space, tab, LF, VT, FF and CR, and case folding beyond A–Z. `Strings.Strip` removes those six characters, which is exact for JavaScript's `trim()` on ASCII text. Python's `str.strip()` also removes the ASCII separators `\x1c`–`\x1f`, and both remove non-ASCII spaces; the model keeps all of these. `toLowerCase()` maps A–Z only.
- The informational endpoints `/health`, `/`, `/models`, `/prompts`, `/setup`, `/voices` and `/engines`. They return constant or environment-derived JSON.
- `services/tts-service/tts_service.py`, the test scripts, and the other front-end components (`AudioRecorder`, `ChatUI`, `AIAvatar3D`, `page.tsx`, `_app.tsx`). They are not part of this model.
- `MedGemmaInference.load_model`, `setup_environment` and the `main()` command line. Whether a model is loaded is the `loaded` parameter.
- `max_length` and `temperature`, which are passed to the pipeline unchanged.
- React scheduling: each message list is the state after all of a handler's updates are applied. Message ids, timestamps, scrolling, the busy flags and the callbacks `onTranscription`/`onLLMResponse` are not modelled.
- The texts of JavaScript and Python runtime errors: a thrown error's `message` is a parameter. There are two exceptions, both fixed constants. `Tts.NoneInString` is Python's text for `None in str`. `SpeechApi.IndexOutOfRange` is the text of the `IndexError` that `result.alternatives[0]` raises on a result without alternatives; it is written "list index out of range", and its exact wording depends on the protobuf runtime in use.
- A request body that is not JSON at all: destructuring `undefined` makes the gateway handlers throw, and this is not modelled.
- LlmApp.Chat: Ollama's `response` field is taken to be a string; a reply body without it would be passed on as `undefined`.
- SttMain.Transcribe: the confidence is a `real`, so the integer `0` used when there are no results is written `0.0`.
- BackendServer.Transcribe: the 500 from Express's default error handler is an HTML page in the running system; here it is a status plus the multer message.
