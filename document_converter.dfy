/** The conversion façade of lib/api/documentConverter.ts: the extension
    allow-list, the configuration checks on the stored providers, the
    progress adapter, and the classification of what the extraction throws
    into the converter's error classes. */
module DocumentConverter {
  import opened Wrappers
  import opened JsValue
  import opened Text
  import opened Types
  import opened Transport
  import opened Mistral
  import Lists

  const ALLOWED_FILE_TYPES: seq<string> := ["pdf", "docx", "txt", "md"]

  /** `MIME_TYPES`, defined on the allowed types. */
  function MimeType(fileType: string): (m: Option<string>)
    ensures m.Some? <==> fileType in ALLOWED_FILE_TYPES
  {
    if fileType == "pdf" then Some("application/pdf")
    else if fileType == "docx" then Some("application/vnd.openxmlformats-officedocument.wordprocessingml.document")
    else if fileType == "txt" || fileType == "md" then Some("text/plain")
    else None
  }

  /** The errors the façade throws. `ConnectionError` and
      `UnsupportedFileTypeError` extend `DocumentConverterError`;
      `ConversionError` extends `Error` directly. The base class
      `DocumentConverterError` itself is never thrown. */
  datatype ConverterError =
    | ConnectionError
    | UnsupportedFileTypeError(fileType: string)
    | ConversionError(detail: string)

  const CONVERSION_PREFIX := "Document conversion failed: "

  /** The `message` each error class builds in its constructor. */
  function ErrorMessage(e: ConverterError): (m: string)
    ensures e.ConversionError? ==> HasPrefix(m, CONVERSION_PREFIX) && m[|CONVERSION_PREFIX|..] == e.detail
    ensures e.UnsupportedFileTypeError? ==> HasPrefix(m, "Unsupported file type: " + e.fileType + ". ")
  {
    match e
    case ConnectionError => "Could not connect to the document converter service"
    case UnsupportedFileTypeError(t) =>
      "Unsupported file type: " + t + ". Supported types are: " + Join(ALLOWED_FILE_TYPES, ", ")
    case ConversionError(d) => CONVERSION_PREFIX + d
  }

  /** `error instanceof DocumentConverterError`. */
  predicate IsDocumentConverterError(e: ConverterError) {
    e.ConnectionError? || e.UnsupportedFileTypeError?
  }

  /** What the `catch` of `convertDocument` can receive. */
  datatype Thrown = Axios(error: AxiosError) | Converter(e: ConverterError) | Plain(message: string)

  const UNEXPECTED := "An unexpected error occurred during conversion"

  const INVALID_FORMAT := "Invalid file format"
  const INVALID_KEY := "Invalid or missing API key"
  const TOO_LARGE := "File size too large"
  const UNSUPPORTED_TYPE := "Unsupported file type"
  const RATE_LIMITED := "Rate limit exceeded. Please try again later"
  const SERVICE_ERROR := "Service error during conversion"

  /** The message of the status `switch` for an answered axios error. */
  function StatusDetail(status: int, data: Value, message: string): string {
    if status == 400 then TextOr(Get(data, "error"), INVALID_FORMAT)
    else if status == 401 then INVALID_KEY
    else if status == 413 then TOO_LARGE
    else if status == 415 then UNSUPPORTED_TYPE
    else if status == 429 then RATE_LIMITED
    else if status == 500 then SERVICE_ERROR
    else "Error: " + TextOr(Get(data, "error"), message)
  }

  /** The `catch` of `convertDocument`: what it throws for what it caught. */
  function Classify(t: Thrown): (e: ConverterError)
    ensures t.Axios? && t.error.response.None? ==> e == ConnectionError
    ensures t.Axios? && t.error.response.Some? ==>
      e == ConversionError(StatusDetail(t.error.response.value.status, t.error.response.value.data, t.error.message))
    ensures t.Converter? && IsDocumentConverterError(t.e) ==> e == t.e
    ensures t.Plain? || (t.Converter? && !IsDocumentConverterError(t.e)) ==> e == ConversionError(UNEXPECTED)
  {
    match t
    case Axios(err) =>
      (match err.response
       case None => ConnectionError
       case Some(r) => ConversionError(StatusDetail(r.status, r.data, err.message)))
    case Converter(c) => if IsDocumentConverterError(c) then c else ConversionError(UNEXPECTED)
    case Plain(_) => ConversionError(UNEXPECTED)
  }

  /** The status `switch`: the six listed codes get their fixed messages,
      400 preferring the body's `error`; any other code reports the body's
      `error`, else the axios message, after "Error: ". */
  lemma StatusMessages(data: Value, message: string, status: int)
    ensures StatusDetail(400, data, message) ==
      (if TextOf(Get(data, "error")).Some? then TextOf(Get(data, "error")).value else INVALID_FORMAT)
    ensures StatusDetail(401, data, message) == INVALID_KEY
    ensures StatusDetail(413, data, message) == TOO_LARGE
    ensures StatusDetail(415, data, message) == UNSUPPORTED_TYPE
    ensures StatusDetail(429, data, message) == RATE_LIMITED
    ensures StatusDetail(500, data, message) == SERVICE_ERROR
    ensures status !in {400, 401, 413, 415, 429, 500} ==>
      StatusDetail(status, data, message) ==
        "Error: " + (if TextOf(Get(data, "error")).Some? then TextOf(Get(data, "error")).value else message)
  {
  }

  /** What `onProgress` receives. */
  datatype ProgressInfo = ProgressInfo(loaded: real, total: real, progress: real)

  /** `progressAdapter` for one `(stage, progress)` call. */
  function ProgressAdapter(stage: string, value: real): (info: ProgressInfo)
    ensures info.total == 100.0 && info.loaded == info.progress
    ensures stage == UPLOAD_START || stage == PROCESSING_START ==> info.progress == 0.0
    ensures stage == UPLOAD_COMPLETE || stage == PROCESSING_COMPLETE ==> info.progress == 100.0
    ensures stage !in {UPLOAD_START, PROCESSING_START, UPLOAD_COMPLETE, PROCESSING_COMPLETE} ==>
      info.progress == value
  {
    if stage == UPLOAD_START || stage == PROCESSING_START then ProgressInfo(0.0, 100.0, 0.0)
    else if stage == UPLOAD_COMPLETE || stage == PROCESSING_COMPLETE then ProgressInfo(100.0, 100.0, 100.0)
    else ProgressInfo(value, 100.0, value)
  }

  /** The `onProgress` calls the adapter makes for the extraction's events. */
  function Forwarded(hasOnProgress: bool, events: seq<Event>): (infos: seq<ProgressInfo>)
    ensures !hasOnProgress ==> infos == []
    ensures hasOnProgress ==> |infos| == |Progresses(events)|
    ensures hasOnProgress ==> forall i :: 0 <= i < |infos| ==>
      infos[i] == ProgressAdapter(Progresses(events)[i].stage, Progresses(events)[i].value)
  {
    var ps := Progresses(events);
    if hasOnProgress then
      seq(|ps|, i requires 0 <= i < |ps| => ProgressAdapter(ps[i].stage, ps[i].value))
    else []
  }

  /** What one call of `convertDocument` does: the `onProgress` calls, the
      requests of the extraction, and what it returns or throws. */
  datatype Conversion = Conversion(
    progress: seq<ProgressInfo>,
    requests: seq<Request>,
    result: Result<ConversionResult, ConverterError>)

  const NOT_CONFIGURED := "API providers not configured. Please set up your API keys in Settings."
  const NO_ACTIVE := "No active API provider found. Please configure a provider in Settings."
  const NO_MODEL := "No model selected. Please select a model in Settings."

  /** The provider `convertDocument` extracts with: the first active entry. */
  function ActiveProvider(providers: seq<Provider>): (r: Option<Provider>)
    ensures r.Some? <==> exists i :: 0 <= i < |providers| && providers[i].isActive
    ensures r.Some? ==> exists i :: (0 <= i < |providers| && providers[i] == r.value
      && r.value.isActive && forall j :: 0 <= j < i ==> !providers[j].isActive)
  {
    match Lists.FindFirst(providers, (p: Provider) => p.isActive)
    case None => None
    case Some(i) => Some(providers[i])
  }

  /** The checks before the extraction: the provider whose key is used, or
      the error thrown before any request. */
  function Configured(stored: Option<seq<Provider>>): (r: Result<Provider, ConverterError>)
    ensures r.Failure? ==> r.error.ConversionError?
    ensures r.Success? <==> (stored.Some? && ActiveProvider(stored.value).Some?
      && ActiveProvider(stored.value).value.apiKey != [] && |ActiveProvider(stored.value).value.models| > 0)
    ensures r.Success? ==> r.value == ActiveProvider(stored.value).value
  {
    match stored
    case None => Failure(ConversionError(NOT_CONFIGURED))
    case Some(providers) =>
      match ActiveProvider(providers)
      case None => Failure(ConversionError(NO_ACTIVE))
      case Some(p) =>
        if p.apiKey == [] then Failure(ConversionError(NO_ACTIVE))
        else if |p.models| == 0 then Failure(ConversionError(NO_MODEL))
        else Success(p)
  }

  /** The returned record for an extracted text. */
  function Converted(file: File, fileType: string, text: string, elapsed: int): ConversionResult {
    ConversionResult(text, [], Metadata(None, None, None, None, None, None, file.name, fileType, elapsed, |text|))
  }

  /** What `convertDocument` makes of the extraction's run. */
  function FromRun(file: File, fileType: string, hasOnProgress: bool, run: Run, elapsed: int): (c: Conversion)
    ensures !hasOnProgress ==> c.progress == []
    ensures forall i :: 0 <= i < |c.progress| ==> c.progress[i].total == 100.0 && c.progress[i].loaded == c.progress[i].progress
    ensures c.result.Failure? ==> c.result.error == ConversionError(UNEXPECTED)
  {
    var forwarded := Forwarded(hasOnProgress, run.trace);
    match run.result
    case Success(text) => Conversion(forwarded, Requests(run.trace), Success(Converted(file, fileType, text, elapsed)))
    case Failure(x) => Conversion(forwarded, Requests(run.trace), Failure(Classify(Plain(ExtractErrorMessage(x)))))
  }

  /** `convertDocument` as written. The extraction reads the same stored
      providers for its model and always receives the adapter, so it reports
      every progress event; `elapsed` is `Date.now() - startTime`. An
      extension outside the allow-list, then a failed configuration check,
      is thrown before any request or progress event. Every forwarded event
      has total 100 and loaded equal to progress, and nothing is forwarded
      without a callback. A `ConnectionError` is never thrown. */
  function ConvertDocument(file: File, hasOnProgress: bool, stored: Option<seq<Provider>>,
                           io: MistralIo, elapsed: int): (c: Conversion)
    ensures Extension(file.name) !in ALLOWED_FILE_TYPES ==>
      c == Conversion([], [], Failure(UnsupportedFileTypeError(Extension(file.name))))
    ensures Extension(file.name) in ALLOWED_FILE_TYPES && Configured(stored).Failure? ==>
      c == Conversion([], [], Failure(Configured(stored).error))
    ensures !hasOnProgress ==> c.progress == []
    ensures forall i :: 0 <= i < |c.progress| ==> c.progress[i].total == 100.0 && c.progress[i].loaded == c.progress[i].progress
    ensures c.result.Failure? ==> !c.result.error.ConnectionError?
  {
    var fileType := Extension(file.name);
    if fileType !in ALLOWED_FILE_TYPES then Conversion([], [], Failure(UnsupportedFileTypeError(fileType)))
    else match Configured(stored)
      case Failure(e) => Conversion([], [], Failure(e))
      case Success(provider) =>
        FromRun(file, fileType, hasOnProgress, MistralRun(file.content, provider.apiKey, stored, true, io), elapsed)
  }

  /** The configuration checks: a missing list, no active provider or an
      empty key on the first active one fail with the no-active message, an
      empty model list with the no-model message. */
  lemma ConfiguredFailures(stored: Option<seq<Provider>>, i: nat)
    ensures stored.None? ==> Configured(stored) == Failure(ConversionError(NOT_CONFIGURED))
    ensures stored.Some? && (forall k :: 0 <= k < |stored.value| ==> !stored.value[k].isActive) ==>
      Configured(stored) == Failure(ConversionError(NO_ACTIVE))
    ensures (stored.Some? && i < |stored.value| && stored.value[i].isActive
      && forall j :: 0 <= j < i ==> !stored.value[j].isActive) ==>
      && ActiveProvider(stored.value) == Some(stored.value[i])
      && (stored.value[i].apiKey == [] ==> Configured(stored) == Failure(ConversionError(NO_ACTIVE)))
      && (stored.value[i].apiKey != [] && |stored.value[i].models| == 0 ==>
            Configured(stored) == Failure(ConversionError(NO_MODEL)))
  {
    if stored.Some? && i < |stored.value| && stored.value[i].isActive
      && (forall j :: 0 <= j < i ==> !stored.value[j].isActive) {
      var a := ActiveProvider(stored.value);
      var k :| 0 <= k < |stored.value| && stored.value[k] == a.value && a.value.isActive
        && forall j :: 0 <= j < k ==> !stored.value[j].isActive;
      assert k == i;
    }
  }

  /** On success the result holds the extracted text unchanged, no
      sections, the file's name, the extension and the text's length; the
      requests are the three of the protocol, made with the first active
      provider's key. */
  lemma ConversionSuccess(file: File, hasOnProgress: bool, stored: Option<seq<Provider>>, io: MistralIo, elapsed: int)
    ensures var c := ConvertDocument(file, hasOnProgress, stored, io, elapsed);
      c.result.Success? <==>
        Extension(file.name) in ALLOWED_FILE_TYPES && Configured(stored).Success?
        && UploadsWithId(io) && SignsUrl(io) && AnswersContent(io)
    ensures var c := ConvertDocument(file, hasOnProgress, stored, io, elapsed);
      c.result.Success? ==>
        && c.result.value.text == TextOf(Chain(io.chat.data, CONTENT_PATH)).value
        && c.result.value.sections == []
        && c.result.value.metadata.original_filename == file.name
        && c.result.value.metadata.file_type == Extension(file.name)
        && c.result.value.metadata.text_length == |c.result.value.text|
        && c.result.value.metadata.conversion_time == elapsed
        && |c.requests| == 3
        && c.requests[0] == UploadRequest(file.content, ActiveProvider(stored.value).value.apiKey)
  {
    var fileType := Extension(file.name);
    if fileType in ALLOWED_FILE_TYPES && Configured(stored).Success? {
      var key := Configured(stored).value.apiKey;
      var run := MistralRun(file.content, key, stored, true, io);
      MistralSuccess(file.content, key, stored, true, io);
      assert ConvertDocument(file, hasOnProgress, stored, io, elapsed) == FromRun(file, fileType, hasOnProgress, run, elapsed);
    }
  }

  /** As written, every extraction failure (an HTTP 429 on the chat call
      included) arrives as a plain `Error` and is reported as unexpected:
      the status classification never applies to it. */
  lemma ExtractionFailuresAreUnexpected(file: File, hasOnProgress: bool, stored: Option<seq<Provider>>,
                                        io: MistralIo, elapsed: int)
    requires Extension(file.name) in ALLOWED_FILE_TYPES && Configured(stored).Success?
    requires !(UploadsWithId(io) && SignsUrl(io) && AnswersContent(io))
    ensures ConvertDocument(file, hasOnProgress, stored, io, elapsed).result == Failure(ConversionError(UNEXPECTED))
  {
    MistralSuccess(file.content, Configured(stored).value.apiKey, stored, true, io);
  }

  /** A rate-limited chat call, as written: "unexpected", not the 429 message. */
  lemma RateLimitReportedAsUnexpected(file: File, stored: Option<seq<Provider>>, io: MistralIo, elapsed: int)
    requires Extension(file.name) in ALLOWED_FILE_TYPES && Configured(stored).Success?
    requires UploadsWithId(io) && SignsUrl(io)
    requires io.chat == Rejected(AxiosError(Some(HttpResponse(429, Undefined)), "Request failed with status code 429"))
    ensures ConvertDocument(file, false, stored, io, elapsed).result == Failure(ConversionError(UNEXPECTED))
    ensures Classify(Axios(io.chat.error)) == ConversionError(RATE_LIMITED)
  {
    ExtractionFailuresAreUnexpected(file, false, stored, io, elapsed);
    RateLimitStatus(io.chat.error);
  }

  /** An answered 429 is classified with the rate-limit message. */
  lemma RateLimitStatus(err: AxiosError)
    requires err.response.Some? && err.response.value.status == 429
    ensures Classify(Axios(err)) == ConversionError(RATE_LIMITED)
  {
  }

  /** The classification the catch was evidently written for: an extraction
      that failed on an axios error is classified by that error; any other
      extraction failure stays unexpected. */
  function ClassifyExtraction(x: ExtractError): (e: ConverterError)
    ensures x.Wrapped? && x.cause.AxiosFailure? ==> e == Classify(Axios(x.cause.error))
    ensures !(x.Wrapped? && x.cause.AxiosFailure?) ==> e == ConversionError(UNEXPECTED)
  {
    match x
    case Wrapped(AxiosFailure(err)) => Classify(Axios(err))
    case _ => Classify(Plain(ExtractErrorMessage(x)))
  }

  /** `convertDocument` with the extraction's transport failures reaching the
      status classification. Everything else is as in `ConvertDocument`. */
  function ConvertDocumentIntended(file: File, hasOnProgress: bool, stored: Option<seq<Provider>>,
                                   io: MistralIo, elapsed: int): Conversion
  {
    var c := ConvertDocument(file, hasOnProgress, stored, io, elapsed);
    var fileType := Extension(file.name);
    if fileType !in ALLOWED_FILE_TYPES || Configured(stored).Failure? then c
    else
      var run := MistralRun(file.content, Configured(stored).value.apiKey, stored, true, io);
      if run.result.Success? then c
      else Conversion(c.progress, c.requests, Failure(ClassifyExtraction(run.result.error)))
  }

  /** With the intended classification, a rejected call of the protocol is
      reported by its status (or as a connection failure when it had no
      response), and the intended façade agrees with the written one on
      every other outcome. */
  lemma IntendedClassification(file: File, hasOnProgress: bool, stored: Option<seq<Provider>>,
                               io: MistralIo, elapsed: int)
    requires Extension(file.name) in ALLOWED_FILE_TYPES && Configured(stored).Success?
    ensures !io.upload.Ok? ==>
      ConvertDocumentIntended(file, hasOnProgress, stored, io, elapsed).result == Failure(Classify(Axios(io.upload.error)))
    ensures UploadsWithId(io) && !io.signedUrl.Ok? ==>
      ConvertDocumentIntended(file, hasOnProgress, stored, io, elapsed).result == Failure(Classify(Axios(io.signedUrl.error)))
    ensures UploadsWithId(io) && SignsUrl(io) && !io.chat.Ok? ==>
      ConvertDocumentIntended(file, hasOnProgress, stored, io, elapsed).result == Failure(Classify(Axios(io.chat.error)))
    ensures io.upload.Ok? && io.signedUrl.Ok? && io.chat.Ok? ==>
      ConvertDocumentIntended(file, hasOnProgress, stored, io, elapsed) == ConvertDocument(file, hasOnProgress, stored, io, elapsed)
  {
    var key := Configured(stored).value.apiKey;
    IntendedFromRun(file, hasOnProgress, stored, io, elapsed);
    if !io.upload.Ok? {
      MistralUploadRejected(file.content, key, stored, true, io);
    } else if !UploadsWithId(io) {
      MistralNoFileId(file.content, key, stored, true, io);
    } else if !SignsUrl(io) {
      MistralSignedUrlFails(file.content, key, stored, true, io);
    } else if !AnswersContent(io) {
      MistralChatFails(file.content, key, stored, true, io);
    }
  }

  /** The intended façade replaces only the error of a failed extraction. */
  lemma IntendedFromRun(file: File, hasOnProgress: bool, stored: Option<seq<Provider>>,
                        io: MistralIo, elapsed: int)
    requires Extension(file.name) in ALLOWED_FILE_TYPES && Configured(stored).Success?
    ensures var run := MistralRun(file.content, Configured(stored).value.apiKey, stored, true, io);
      && (run.result.Success? ==>
            ConvertDocumentIntended(file, hasOnProgress, stored, io, elapsed) == ConvertDocument(file, hasOnProgress, stored, io, elapsed))
      && (run.result.Failure? ==>
            ConvertDocumentIntended(file, hasOnProgress, stored, io, elapsed).result == Failure(ClassifyExtraction(run.result.error)))
      && (run.result.Failure? && !(run.result.error.Wrapped? && run.result.error.cause.AxiosFailure?) ==>
            ConvertDocumentIntended(file, hasOnProgress, stored, io, elapsed) == ConvertDocument(file, hasOnProgress, stored, io, elapsed))
  {
  }
}
