/** The two HTTP handlers of the backend (server.js:61-86, 96-252): the health
    check, and the analyze endpoint's check order, upstream-error mapping,
    response shape and temporary-file cleanup.  The inference call and the
    file read are inputs: their outcome is given, not performed. */
module Handler {
  import opened Js
  import opened Detection

  /** The body of a JSON reply. */
  datatype Body =
    | Health(status: string, message: Option<string>)
    | Result(verdict: Verdict)
    | Failure(error: string, details: Option<string>)

  datatype Reply = Reply(code: int, body: Body)

  /** A 2xx status, what `fetch` reports as `response.ok`. */
  predicate IsOk(code: int) {
    200 <= code <= 299
  }

  const KeyMissingHealthMessage := "HUGGINGFACE_API_KEY not set"
  const KeyMissingMessage := "HUGGINGFACE_API_KEY not set. Please configure the API key."
  const NoFileMessage := "No file uploaded"
  const AnalyzeFailedError := "Error analyzing file"
  const InvalidKeyMessage := "Invalid Hugging Face API key"
  const ModelLoadingMessage := "Model is currently loading. Please try again in a few minutes."
  const NetworkMessage :=
    "Network error when connecting to Hugging Face API. Please check your internet connection."
  const WrapPrefix := "Failed to analyze image with AI model: "
  const UnexpectedFormatMessage := "Unexpected response format from API"

  /** `GET /api/health`: ready exactly when the API key is configured. */
  function HealthCheck(hasKey: bool): (r: Reply)
    ensures r.body.Health?
    ensures r.body.status == "ok" <==> hasKey
    ensures IsOk(r.code) <==> hasKey
    ensures !hasKey ==> r.code == 503 && r.body == Health("error", Some(KeyMissingHealthMessage))
  {
    if !hasKey then Reply(503, Health("error", Some(KeyMissingHealthMessage)))
    else Reply(200, Health("ok", None))
  }

  /** A JavaScript error as the inner `catch` sees it: the HTTP status of
      `error.response`, if any, the error's `name` and its `message`. */
  datatype UpstreamError = UpstreamError(status: Option<int>, name: string, message: string)

  /** The four messages the inner `catch` may rethrow. */
  predicate IsMappedMessage(e: UpstreamError, m: string) {
    m == InvalidKeyMessage || m == ModelLoadingMessage || m == NetworkMessage
    || m == WrapPrefix + e.message
  }

  /** The inner `catch` (server.js:218-235): the checks run in order 401, 503,
      network `TypeError`, and everything else is wrapped with a prefix. */
  function ClassifyUpstreamError(e: UpstreamError): (m: string)
    ensures IsMappedMessage(e, m)
    ensures e.status == Some(401) ==> m == InvalidKeyMessage
    ensures e.status == Some(503) ==> m == ModelLoadingMessage
    ensures (e.status != Some(401) && e.status != Some(503) && e.name == "TypeError" &&
             Includes(e.message, "fetch")) ==> m == NetworkMessage
    ensures (e.status != Some(401) && e.status != Some(503) &&
             !(e.name == "TypeError" && Includes(e.message, "fetch"))) ==> m == WrapPrefix + e.message
  {
    if e.status == Some(401) then InvalidKeyMessage
    else if e.status == Some(503) then ModelLoadingMessage
    else if e.name == "TypeError" && Includes(e.message, "fetch") then NetworkMessage
    else WrapPrefix + e.message
  }

  /** A wrapped message keeps the original: stripping the prefix gives it back. */
  lemma WrappedMessageRoundTrip(e: UpstreamError)
    requires e.status != Some(401) && e.status != Some(503)
    requires !(e.name == "TypeError" && Includes(e.message, "fetch"))
    ensures StartsWith(ClassifyUpstreamError(e), WrapPrefix)
    ensures ClassifyUpstreamError(e)[|WrapPrefix|..] == e.message
  {
  }

  /** A 401 wins over every other feature of the error, even a network-looking one. */
  lemma UnauthorizedWins(name: string, message: string)
    ensures ClassifyUpstreamError(UpstreamError(Some(401), name, message)) == InvalidKeyMessage
  {
  }

  /** The network message needs both the `TypeError` name and "fetch" in the
      message; a `TypeError` about anything else is wrapped. */
  lemma TypeErrorWithoutFetchIsWrapped(message: string)
    requires !Includes(message, "fetch")
    ensures ClassifyUpstreamError(UpstreamError(None, "TypeError", message)) == WrapPrefix + message
  {
  }

  /** The format error thrown at line 205 passes through the same `catch`
      and comes out wrapped. */
  const UnexpectedFormatError := UpstreamError(None, "Error", UnexpectedFormatMessage)

  lemma UnexpectedFormatIsWrapped()
    ensures ClassifyUpstreamError(UnexpectedFormatError) == WrapPrefix + UnexpectedFormatMessage
  {
  }

  /** The file multer stored for the request (`req.file`). */
  datatype StoredUpload = StoredUpload(originalName: string)

  /** What `hf.imageClassification` did: answered, or threw. */
  datatype Upstream = Answered(response: InferenceResponse) | Threw(error: UpstreamError)

  /** The reply, and whether the temporary upload is still on disk after it. */
  datatype Handled = Handled(reply: Reply, tempFileExists: bool)

  /** The outer `catch` (server.js:237-250): remove the temporary file if it is
      still there, and answer 500 with the error's message as details. */
  function FailWith(file: Option<StoredUpload>, onDisk: bool, message: string): (h: Handled)
    requires onDisk ==> file.Some?
    ensures h.reply == Reply(500, Failure(AnalyzeFailedError, Some(message)))
    ensures !h.tempFileExists
  {
    var stillOnDisk := if file.Some? && onDisk then false else onDisk;
    Handled(Reply(500, Failure(AnalyzeFailedError, Some(message))), stillOnDisk)
  }

  /** `POST /api/analyze` once multer has run.  `file` is what multer stored
      (its presence means a temporary file exists), `readError` the message
      of a failing `fs.readFileSync`, `upstream` the inference outcome. */
  function Analyze(hasKey: bool, file: Option<StoredUpload>, readError: Option<string>, upstream: Upstream)
    : (h: Handled)
    ensures !h.tempFileExists
    ensures h.reply.code == 200 || h.reply.code == 400 || h.reply.code == 500
    ensures !hasKey ==> h.reply == Reply(500, Failure(AnalyzeFailedError, Some(KeyMissingMessage)))
    ensures hasKey && file.None? ==> h.reply == Reply(400, Failure(NoFileMessage, None))
    ensures h.reply.code == 400 <==> hasKey && file.None?
    ensures h.reply.code == 200 <==>
      (hasKey && file.Some? && readError.None? && upstream.Answered? && !upstream.response.Unrecognized?)
    ensures h.reply.code == 200 ==>
      (h.reply.body.Result? && Normalize(upstream.response, file.value.originalName) == Judged(h.reply.body.verdict))
    ensures h.reply.code == 500 ==> h.reply.body.Failure? && h.reply.body.error == AnalyzeFailedError
    ensures hasKey && file.Some? && readError.Some? ==> h.reply == Reply(500, Failure(AnalyzeFailedError, readError))
    ensures hasKey && file.Some? && readError.None? && upstream.Threw? ==>
      h.reply == Reply(500, Failure(AnalyzeFailedError, Some(ClassifyUpstreamError(upstream.error))))
  {
    // multer has written the upload to disk before the handler runs
    var onDisk := file.Some?;
    if !hasKey then
      FailWith(file, onDisk, KeyMissingMessage)
    else if file.None? then
      Handled(Reply(400, Failure(NoFileMessage, None)), onDisk)
    else if readError.Some? then
      FailWith(file, onDisk, readError.value)
    else
      match upstream
      case Threw(e) =>
        // the unlink at line 116 is skipped; the outer catch removes the file
        FailWith(file, onDisk, ClassifyUpstreamError(e))
      case Answered(response) =>
        // line 116 removes the file before the answer is examined
        var afterUnlink := false;
        match Normalize(response, file.value.originalName)
        case Judged(v) => Handled(Reply(200, Result(v)), afterUnlink)
        case UnexpectedFormat => FailWith(file, afterUnlink, ClassifyUpstreamError(UnexpectedFormatError))
  }

  /** Without a key the handler never reaches the file check: a missing file
      still gets 500, not 400. */
  lemma KeyCheckedBeforeFile(readError: Option<string>, upstream: Upstream)
    ensures Analyze(false, None, readError, upstream).reply.code == 500
  {
  }

  /** The upstream failure classes reach the client as the reply's details. */
  lemma UpstreamFailureDetails(name: string, e: UpstreamError)
    ensures Analyze(true, Some(StoredUpload(name)), None, Threw(e)).reply.body.details
      == Some(ClassifyUpstreamError(e))
  {
  }

  /** An unrecognised answer reaches the client as the wrapped format error. */
  lemma UnrecognizedAnswerDetails(name: string)
    ensures Analyze(true, Some(StoredUpload(name)), None, Answered(Unrecognized)).reply
      == Reply(500, Failure(AnalyzeFailedError, Some(WrapPrefix + UnexpectedFormatMessage)))
  {
  }
}
