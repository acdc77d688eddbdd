/** `backend/index.js`: the gateway that forwards uploads to the Whisper
    service. Multer checks the content type and a 10 MiB size limit while
    parsing the form; its errors reach the catch-all error middleware. */
module BackendIndex {
  import opened Base
  import opened Strings
  import opened Health

  /** The upload size limit `10 * 1024 * 1024` bytes. */
  const TenMiB: nat := 10 * 1024 * 1024

  /** A file part of the multipart form, as multer sees it, with the form
      field it came under. */
  datatype Part = Part(field: string, originalName: string, size: nat, mimetype: string)

  /** The one file field the route accepts, `upload.single('audio')`. */
  const UploadField := "audio"

  /** Multer's text for a file under any other field. */
  const UnexpectedField := "Unexpected field"

  /** Multer's `fileFilter`: only `audio/` types are accepted. */
  predicate FileFilter(mimetype: string) {
    StartsWith(mimetype, "audio/")
  }

  datatype Reply =
    | Forwarded(body: Payload)
    | Rejected(status: nat, error: string)
    | Failed(status: nat, error: string, message: string)

  /** The multipart request sent to Whisper's `/transcribe`. */
  datatype Forward = Forward(filename: string, contentType: string)

  datatype Handled = Handled(reply: Reply, sent: Option<Forward>)

  /** The error middleware's reply to an error raised while parsing. */
  function MiddlewareError(message: string): (r: Reply)
    ensures r.Failed? && r.status == 500 && r.message == message
  {
    Failed(500, "Internal server error", message)
  }

  /** `POST /api/transcribe`: multer's field check runs first, then the
      filter, then the size limit, then the handler's own check for a
      missing file; an accepted upload goes to Whisper and its reply body
      is returned unchanged. */
  function Transcribe(part: Option<Part>, whisper: PeerOutcome): (h: Handled)
    ensures h.sent.Some? <==>
      part.Some? && part.value.field == UploadField && FileFilter(part.value.mimetype) && part.value.size <= TenMiB
    ensures part.None? ==> h == Handled(Rejected(400, "No audio file provided"), None)
    ensures part.Some? && part.value.field != UploadField ==>
      h == Handled(MiddlewareError(UnexpectedField), None)
    ensures part.Some? && part.value.field == UploadField && !FileFilter(part.value.mimetype) ==>
      h.reply == MiddlewareError("Only audio files are allowed")
    ensures part.Some? && part.value.field == UploadField && FileFilter(part.value.mimetype)
            && part.value.size > TenMiB ==>
      h.reply == MiddlewareError("File too large")
    ensures h.sent.Some? ==>
      h.sent.value == Forward(part.value.originalName, part.value.mimetype)
      && (whisper.Replied? ==> h.reply == Forwarded(whisper.body))
      && (whisper.PeerFailed? ==> h.reply == Failed(500, "Transcription failed", whisper.message))
  {
    match part
    case None => Handled(Rejected(400, "No audio file provided"), None)
    case Some(p) =>
      if p.field != UploadField then Handled(MiddlewareError(UnexpectedField), None)
      else if !FileFilter(p.mimetype) then Handled(MiddlewareError("Only audio files are allowed"), None)
      else if p.size > TenMiB then Handled(MiddlewareError("File too large"), None)
      else
        var reply := match whisper
          case Replied(body) => Forwarded(body)
          case PeerFailed(msg) => Failed(500, "Transcription failed", msg);
        Handled(reply, Some(Forward(p.originalName, p.mimetype)))
  }

  /** Every upload Whisper receives from this gateway passes Whisper's own
      content-type test, so Whisper never answers it with its rejection. */
  lemma ForwardedUploadsAreAudio(part: Option<Part>, whisper: PeerOutcome)
    requires Transcribe(part, whisper).sent.Some?
    ensures IsAudioType(Some(Transcribe(part, whisper).sent.value.contentType))
  {
  }

  /** `GET /api/services/status`: one entry, `whisper`, without a URL. */
  method ServicesStatus(whisperUrl: string, probe: string -> PeerOutcome)
    returns (success: bool, status: map<string, Entry>)
    ensures success
    ensures status.Keys == {"whisper"}
    ensures status["whisper"] == EntryFor(Service("whisper", whisperUrl), probe, false)
    ensures status["whisper"].url.None?
  {
    var services := [Service("whisper", whisperUrl)];
    status := Aggregate(services, probe, false);
    forall n ensures n in Names(services) <==> n == "whisper" {
      NamesIff(services, n);
    }
    assert LastWithName(services, 0, 1);
    success := true;
  }
}
