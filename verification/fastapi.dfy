/** How the FastAPI services turn exceptions into HTTP errors. Each
    transcription handler wraps its whole body in `except Exception`, which
    also catches the `HTTPException` the handler raised itself and re-raises
    it as a 500 whose detail embeds `str(exc)`. */
module FastApi {
  import opened Strings

  /** `str(HTTPException(status_code, detail))`: the status code, a colon
      and the detail. */
  function HttpExceptionText(code: nat, detail: string): (r: string)
    ensures StartsWith(r, NatToString(code) + ": ")
    ensures r[|NatToString(code)| + 2..] == detail
  {
    NatToString(code) + ": " + detail
  }

  /** The status FastAPI answers with, before the handler runs, when a
      required form part (`name: UploadFile = File(...)`) is missing. */
  const UnprocessableEntity: nat := 422

  const NotAudio := "File must be an audio file"

  /** The detail of the outer handler's 500 for an exception whose text is
      `message`. */
  function TranscriptionFailed(message: string): string {
    "Transcription failed: " + message
  }

  /** The detail a non-audio upload ends up with: the 400 re-wrapped. */
  const RejectedUpload := TranscriptionFailed(HttpExceptionText(400, NotAudio))
}
