/** The `POST` handler of app/api/convert/route.ts: a server-side decision
    chain over the form, the API-key header and the outcome of the Mistral
    extraction, each branch building one JSON response. On the server there
    is no browser storage, so the extraction uses the default model, and the
    handler passes no progress callback. */
module ConvertRoute {
  import opened Wrappers
  import opened Types
  import opened JsValue
  import opened Transport
  import opened Mistral

  const JSON_CONTENT_TYPE := "application/json"
  const NO_FILE := "No file provided"
  const NO_KEY := "Mistral API key not provided"
  const NO_DETAILS := "No additional details available"
  const NO_STACK := "No stack trace available"
  const PROCESS_PREFIX := "Failed to process file: "
  const EXTRACT_PREFIX := "Failed to extract text using Mistral API: "

  /** The JSON bodies the handler serialises; `metadata` is always `{}`. */
  datatype Body =
    | ErrorBody(error: string)
    | ErrorDetails(error: string, details: string)
    | Extracted(text: string, sections: seq<ResumeSection>, metadata: map<string, string>)

  datatype Response = Response(status: int, contentType: string, body: Body)

  /** An error thrown while reading the request: its message and its stack
      text (empty when the error has none). */
  datatype Thrown = Thrown(message: string, stack: string)

  /** What the handler reads: the `file` form field (or the error
      `formData()` throws), the `x-mistral-api-key` header, and whether
      `file.arrayBuffer()` throws. */
  datatype PostRequest = PostRequest(
    form: Result<Option<File>, Thrown>,
    apiKeyHeader: Option<string>,
    readFailure: Option<Thrown>)

  /** The outer `catch`. */
  function ProcessingFailure(t: Thrown): (r: Response)
    ensures r.status == 500 && r.body.ErrorDetails?
    ensures r.body.error == PROCESS_PREFIX + t.message
    ensures r.body.details == (if t.stack == [] then NO_STACK else t.stack)
  {
    Response(500, JSON_CONTENT_TYPE, ErrorDetails(PROCESS_PREFIX + t.message, if t.stack != [] then t.stack else NO_STACK))
  }

  /** The header is present and non-empty. */
  predicate HasKey(req: PostRequest) {
    req.apiKeyHeader.Some? && req.apiKeyHeader.value != []
  }

  /** `POST`: the response, and the requests the extraction sent. */
  function Post(req: PostRequest, io: MistralIo): (r: (Response, seq<Mistral.Request>))
    ensures r.0.contentType == JSON_CONTENT_TYPE
    ensures r.0.status in {200, 400, 401, 500}
    ensures r.0.status == 400 <==> req.form == Success(None)
    ensures r.0.status == 400 ==> r.0.body == ErrorBody(NO_FILE)
    ensures r.0.status == 401 <==> req.form.Success? && req.form.value.Some? && !HasKey(req)
    ensures r.0.status == 401 ==> r.0.body == ErrorBody(NO_KEY)
    ensures r.1 != [] ==> req.form.Success? && req.form.value.Some? && HasKey(req) && req.readFailure.None?
    ensures req.form.Failure? ==> r.0 == ProcessingFailure(req.form.error)
    ensures req.form.Success? && req.form.value.Some? && HasKey(req) && req.readFailure.Some? ==>
              r == (ProcessingFailure(req.readFailure.value), [])
    ensures r.0.status == 200 ==> r.0.body.Extracted? && r.0.body.sections == [] && r.0.body.metadata == map[]
  {
    match req.form
    case Failure(t) => (ProcessingFailure(t), [])
    case Success(None) => (Response(400, JSON_CONTENT_TYPE, ErrorBody(NO_FILE)), [])
    case Success(Some(file)) =>
      if !HasKey(req) then (Response(401, JSON_CONTENT_TYPE, ErrorBody(NO_KEY)), [])
      else if req.readFailure.Some? then (ProcessingFailure(req.readFailure.value), [])
      else
        var run := MistralRun(file.content, req.apiKeyHeader.value, None, false, io);
        match run.result
        case Success(text) =>
          (Response(200, JSON_CONTENT_TYPE, Extracted(text, [], map[])), Requests(run.trace))
        case Failure(e) =>
          (Response(500, JSON_CONTENT_TYPE, ErrorDetails(ExtractErrorMessage(e), NO_DETAILS)), Requests(run.trace))
  }

  /** The request reaches the extraction: a file, a key and a readable
      buffer. */
  predicate Extracts(req: PostRequest) {
    req.form.Success? && req.form.value.Some? && HasKey(req) && req.readFailure.None?
  }

  /** A 200 comes exactly from a request that reaches the extraction and
      three calls that succeed; it carries the chat answer, and the
      extraction sent exactly the upload of the file with the header's key,
      the signed-URL request and the chat request for the default model. */
  lemma PostSuccess(req: PostRequest, io: MistralIo)
    ensures Post(req, io).0.status == 200 <==> Extracts(req) && UploadsWithId(io) && SignsUrl(io) && AnswersContent(io)
    ensures Post(req, io).0.status == 200 ==>
      var key := req.apiKeyHeader.value;
      && Post(req, io).0.body.text == TextOf(Chain(io.chat.data, CONTENT_PATH)).value
      && Post(req, io).1 == [
           UploadRequest(req.form.value.value.content, key),
           SignedUrlRequest(TextOf(Get(io.upload.data, "id")).value, key),
           ChatCompletion(MISTRAL_API_CHAT, OcrBody(DEFAULT_MODEL, TextOf(Get(io.signedUrl.data, "url")).value), key)]
  {
    if Extracts(req) {
      MistralSuccess(req.form.value.value.content, req.apiKeyHeader.value, None, false, io);
    }
  }

  /** An extraction failure is a 500 whose message is the wrapped detail of
      the failed call, never the missing-key error (the handler has already
      checked the key), with the fixed details text. */
  lemma PostExtractionFailure(req: PostRequest, io: MistralIo)
    requires Extracts(req)
    requires !(UploadsWithId(io) && SignsUrl(io) && AnswersContent(io))
    ensures Post(req, io).0.status == 500
    ensures Post(req, io).0.body.ErrorDetails?
    ensures Post(req, io).0.body.details == NO_DETAILS
    ensures var run := MistralRun(req.form.value.value.content, req.apiKeyHeader.value, None, false, io);
      run.result.Failure? && run.result.error.Wrapped?
      && Post(req, io).0.body.error == EXTRACT_PREFIX + CaughtDetail(run.result.error.cause)
  {
    MistralSuccess(req.form.value.value.content, req.apiKeyHeader.value, None, false, io);
  }
}
