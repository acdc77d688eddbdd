/** The parts of the Google Cloud Speech-to-Text client the two STT
    services use: the recognition config they build and the answer of one
    `recognize` call, which is either a list of results or an exception. */
module SpeechApi {

  datatype Encoding = Linear16 | WebmOpus | Mp3 | OggOpus

  datatype RecognitionConfig = RecognitionConfig(
    encoding: Encoding,
    sampleRateHertz: nat,
    languageCode: string,
    enableAutomaticPunctuation: bool,
    enableWordTimeOffsets: bool,
    model: string)

  /** One hypothesis of a result; `confidence` is the recogniser's float. */
  datatype Alternative = Alternative(transcript: string, confidence: real)

  /** One result: its alternatives, best first. */
  datatype SpeechResult = SpeechResult(alternatives: seq<Alternative>)

  /** What `client.recognize(config=..., audio=...)` does. */
  datatype RecognizeOutcome =
    | Recognized(results: seq<SpeechResult>)
    | Raised(message: string)

  /** A speech client whose `recognize` call answers with `answer`. */
  datatype Client = Client(answer: RecognizeOutcome)

  /** The text of the `IndexError` Python raises for `results[0]` or
      `alternatives[0]` on an empty list. */
  const IndexOutOfRange := "list index out of range"

  /** Every result carries at least one alternative, so `alternatives[0]`
      cannot fail. */
  predicate AllHaveAlternatives(results: seq<SpeechResult>) {
    forall k :: 0 <= k < |results| ==> |results[k].alternatives| > 0
  }
}
