/** `services/llm-service/app.js`: the Ollama-backed healthcare responder.
    A message is wrapped in a fixed healthcare prompt and sent to Ollama;
    when Ollama fails, a fallback reply quoting the message is sent
    instead, so the endpoint reports success either way. */
module LlmApp {
  import opened Base
  import opened Strings

  const PromptPrefix := "You are a healthcare AI assistant. Please provide helpful information about the following health question, while being clear that you're not a doctor and not providing medical advice: "

  /** The healthcare prompt: the fixed prefix, then the message. */
  function HealthcarePrompt(message: string): (p: string)
    ensures StartsWith(p, PromptPrefix)
    ensures p[|PromptPrefix|..] == message
  {
    PromptPrefix + message
  }

  /** What `axios.post(OLLAMA_URL + '/api/generate', ...)` does: the `response`
      field of the reply body, or an error (timeouts included). */
  datatype OllamaOutcome = Generated(response: string) | OllamaFailed(message: string)

  datatype ChatResponse =
    | Answered(response: string, kind: string, model: Option<string>, confidence: real)
    | BadRequest(error: string)
    | ServerError(error: string, message: string)

  /** The response, and the prompt sent to Ollama if the call was made. */
  datatype Handled = Handled(response: ChatResponse, sent: Option<string>)

  const FallbackHead := "I apologize, but I'm currently unable to process your request about "
  const FallbackTail := ". As a healthcare AI assistant, I recommend consulting with a qualified healthcare professional for medical advice."

  /** The fallback reply, with the message in double quotes. */
  function FallbackReply(message: string): (r: string)
    ensures Contains(r, "\"" + message + "\"")
  {
    ContainsInfix(FallbackHead, "\"" + message + "\"", FallbackTail);
    FallbackHead + ("\"" + message + "\"") + FallbackTail
  }

  /** `POST /chat`; `ollamaModel` is `OLLAMA_MODEL`. A non-string truthy
      message makes `message.substring` throw, which the outer `catch`
      answers with a 500 carrying the error's message before Ollama is
      called; `thrown` is the text of that `TypeError`. */
  function Chat(message: Json, ollamaModel: string, ollama: OllamaOutcome, thrown: string): (h: Handled)
    ensures !message.Truthy() ==> h == Handled(BadRequest("Message is required"), None)
    ensures message.Truthy() && !message.Str? ==> h == Handled(ServerError("Chat request failed", thrown), None)
    // A string message is always sent, wrapped in the healthcare prompt...
    ensures message.Truthy() && message.Str? ==>
      h.sent == Some(HealthcarePrompt(message.s)) && h.response.Answered?
    // ...and Ollama's text is passed on, or else the fallback quoting the message.
    ensures h.sent.Some? && ollama.Generated? ==>
      h.response == Answered(ollama.response, "ollama", Some(ollamaModel), 0.9)
    ensures h.sent.Some? && ollama.OllamaFailed? ==>
      h.response.kind == "fallback" && h.response.confidence == 0.5 && h.response.model.None?
      && Contains(h.response.response, "\"" + message.s + "\"")
  {
    if !message.Truthy() then Handled(BadRequest("Message is required"), None)
    else if !message.Str? then Handled(ServerError("Chat request failed", thrown), None)
    else
      var prompt := HealthcarePrompt(message.s);
      match ollama
      case Generated(text) => Handled(Answered(text, "ollama", Some(ollamaModel), 0.9), Some(prompt))
      case OllamaFailed(_) => Handled(Answered(FallbackReply(message.s), "fallback", None, 0.5), Some(prompt))
  }
}
