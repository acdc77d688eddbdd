/** `services/llm-service/medgemma_inference.py`, `generate_response`: wraps
    the question in a fixed template, runs the text-generation pipeline,
    removes the echoed template from the generated text and strips it. */
module MedGemma {
  import opened Base
  import opened Strings

  const Header := "You are a knowledgeable healthcare AI assistant. Please provide helpful, accurate information about the following health question. Always remind users to consult healthcare professionals for medical advice."
  const QuestionMark := "\n\nQuestion: "
  const ResponseMark := "\n\nResponse:"

  /** The f-string template: header, a blank line, "Question: " and the
      prompt, a blank line, "Response:". */
  function HealthcarePrompt(prompt: string): string {
    Header + QuestionMark + prompt + ResponseMark
  }

  /** Reads the question back out of a template-shaped string. */
  function QuestionOf(text: string): Option<string> {
    var head := Header + QuestionMark;
    if |text| >= |head| + |ResponseMark| && head <= text && text[|text| - |ResponseMark|..] == ResponseMark
    then Some(text[|head|..|text| - |ResponseMark|])
    else None
  }

  /** The template keeps the question intact: it can be read back. */
  lemma PromptRoundTrip(prompt: string)
    ensures QuestionOf(HealthcarePrompt(prompt)) == Some(prompt)
  {
    var head := Header + QuestionMark;
    var text := HealthcarePrompt(prompt);
    assert text == head + prompt + ResponseMark;
    assert head <= text;
    assert text[|text| - |ResponseMark|..] == ResponseMark;
    assert text[|head|..|text| - |ResponseMark|] == prompt;
  }

  /** What calling the pipeline and reading `result[0]['generated_text']`
      does. */
  datatype GenerateOutcome = Generated(text: string) | Raised(message: string)

  datatype Result =
    | Responded(response: string, model: string, confidence: real)
    | Failed(error: string)

  /** The result, and the template text handed to the pipeline if it was
      called. */
  datatype Handled = Handled(result: Result, sent: Option<string>)

  /** `generate_response(prompt)`. `loaded` is whether `self.model` is set;
      the method never raises. */
  function GenerateResponse(loaded: bool, prompt: string, outcome: GenerateOutcome): (h: Handled)
    ensures !loaded ==> h == Handled(Failed("Model not loaded"), None)
    ensures loaded ==> h.sent == Some(HealthcarePrompt(prompt))
    ensures h.result.Responded? <==> loaded && outcome.Generated?
    ensures h.result.Responded? ==>
      h.result.model == "MedGemma" && h.result.confidence == 0.9
      && IsStripOf(RemoveAll(outcome.text, HealthcarePrompt(prompt)), h.result.response)
    ensures loaded && outcome.Raised? ==> h.result == Failed(outcome.message)
  {
    if !loaded then Handled(Failed("Model not loaded"), None)
    else
      var full := HealthcarePrompt(prompt);
      match outcome
      case Raised(msg) => Handled(Failed(msg), Some(full))
      case Generated(text) => Handled(Responded(Strip(RemoveAll(text, full)), "MedGemma", 0.9), Some(full))
  }

  /** The usual case: the pipeline echoes the template and continues it.
      The reply is the continuation, stripped, as long as the continuation
      does not repeat the template. */
  lemma EchoedPromptIsRemoved(prompt: string, continuation: string)
    requires !Contains(continuation, HealthcarePrompt(prompt))
    ensures GenerateResponse(true, prompt, Generated(HealthcarePrompt(prompt) + continuation)).result
         == Responded(Strip(continuation), "MedGemma", 0.9)
  {
    RemoveAllPrefix(HealthcarePrompt(prompt), continuation);
    RemoveAllAbsent(continuation, HealthcarePrompt(prompt));
  }
}
