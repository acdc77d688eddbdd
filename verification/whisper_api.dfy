/** The parts of the `whisper` library the two Whisper services use: the
    model handle and the dictionary `model.transcribe(path)` returns. */
module WhisperApi {
  import opened Base

  datatype WhisperModel = WhisperModel(size: string)

  /** One entry of `result["segments"]`; `end` is absent when the key is. */
  datatype Segment = Segment(end: Option<real>)

  /** `result`: `language` and `segments` are `None` when the key is
      missing. */
  datatype TranscribeResult = TranscribeResult(text: string, language: Option<string>, segments: Option<seq<Segment>>)

  /** What `model.transcribe(temp_file_path)` does. */
  datatype TranscribeOutcome = Done(result: TranscribeResult) | Raised(message: string)

  /** Both services load the "tiny" model. */
  const ModelSize := "tiny"
}
