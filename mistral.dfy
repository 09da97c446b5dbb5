/** The Mistral client of lib/api/mistral.ts: the selected-model lookup with
    its fallback, the chat-capable model list, and the three-request OCR
    protocol (upload, signed URL, chat completion) with its progress events,
    recorded as a trace of events. */
module Mistral {
  import opened Wrappers
  import opened JsValue
  import opened Types
  import opened Chat
  import opened Transport
  import Lists

  const MISTRAL_API_BASE := "https://api.mistral.ai/v1"
  const MISTRAL_API_CHAT := MISTRAL_API_BASE + "/chat/completions"
  const DEFAULT_MODEL := "mistral-small-latest"
  const OCR_INSTRUCTION := "Extract and return all the text content from this PDF document"

  /** The stage names passed to the progress callback. */
  const UPLOAD_START := "upload-start"
  const UPLOADING := "uploading"
  const UPLOAD_COMPLETE := "upload-complete"
  const PROCESSING_START := "processing-start"
  const PROCESSING_COMPLETE := "processing-complete"

  /** `getSelectedModel`: the first model of the stored 'mistral' entry when
      that entry exists, is active and has a non-empty first model; the
      default model in every other case, including a missing store. */
  function SelectedModel(stored: Option<seq<Provider>>): (model: string)
    ensures model != []
    ensures stored.None? ==> model == DEFAULT_MODEL
    ensures stored.Some? ==>
      var i := Lists.FindFirst(stored.value, (p: Provider) => p.id == "mistral");
      if i.Some? && stored.value[i.value].isActive
         && |stored.value[i.value].models| > 0 && stored.value[i.value].models[0] != []
      then model == stored.value[i.value].models[0]
      else model == DEFAULT_MODEL
  {
    match stored
    case None => DEFAULT_MODEL
    case Some(providers) =>
      match Lists.FindFirst(providers, (p: Provider) => p.id == "mistral")
      case None => DEFAULT_MODEL
      case Some(i) =>
        var p := providers[i];
        if !p.isActive then DEFAULT_MODEL
        else if |p.models| > 0 && p.models[0] != [] then p.models[0]
        else DEFAULT_MODEL
  }

  /** `model.capabilities?.completion_chat`, which throws on a nullish model. */
  function ChatCapable(m: Value): (r: Option<bool>)
    ensures r.None? <==> IsNullish(m)
    ensures r.Some? ==> (r.value <==> Truthy(Get(Get(m, "capabilities"), "completion_chat")))
  {
    if IsNullish(m) then None else Some(Truthy(Get(Get(m, "capabilities"), "completion_chat")))
  }

  datatype ModelsRequest = ModelsRequest(url: string, apiKey: string)

  /** `getMistralModels`: the ids of the chat-capable models, in response
      order; every failure becomes one fixed message. */
  function GetMistralModels(apiKey: string, reply: Reply): (r: (ModelsRequest, Result<seq<Value>, string>))
    ensures r.0 == ModelsRequest(MISTRAL_API_BASE + "/models", apiKey)
    ensures r.1.Failure? ==> r.1.error == "Failed to fetch available models from Mistral API"
    ensures r.1.Success? <==>
      reply.Ok? && Get(reply.data, "data").Arr?
      && SelectIds(Get(reply.data, "data").elems, ChatCapable).Some?
    ensures r.1.Success? ==> r.1.value == SelectIds(Get(reply.data, "data").elems, ChatCapable).value
    ensures r.1.Success? ==>
      r.1.value == Ids(Lists.Filter(Get(reply.data, "data").elems, Kept(ChatCapable)))
  {
    var request := ModelsRequest(MISTRAL_API_BASE + "/models", apiKey);
    var failed := Failure("Failed to fetch available models from Mistral API");
    if !reply.Ok? then (request, failed)
    else
      var list := Get(reply.data, "data");
      if !Truthy(list) || !list.Arr? then (request, failed)
      else match SelectIds(list.elems, ChatCapable)
        case None => (request, failed)
        case Some(ids) =>
          SelectIdsFilterMap(list.elems, ChatCapable);
          (request, Success(ids))
  }

  /** The requests of the OCR protocol. */
  datatype Request =
    | Upload(url: string, file: seq<Byte>, mimeType: string, purpose: string, apiKey: string)
    | SignedUrl(url: string, expiry: int, apiKey: string)
    | ChatCompletion(url: string, body: ChatBody, apiKey: string)

  /** What the client does, in the order it does it. */
  datatype Event = Progress(stage: string, value: real) | Sent(request: Request)

  /** An axios `onUploadProgress` event; `total` may be unknown. */
  datatype UploadProgress = UploadProgress(loaded: nat, total: Option<nat>)

  /** The outcomes of the three calls, and the upload-progress events axios
      reports while the upload runs. */
  datatype MistralIo = MistralIo(
    uploadProgress: seq<UploadProgress>,
    upload: Reply,
    signedUrl: Reply,
    chat: Reply)

  /** The two kinds of plain `Error` extraction throws. */
  datatype ExtractError = KeyMissing | Wrapped(cause: Cause)

  function ExtractErrorMessage(e: ExtractError): string {
    match e
    case KeyMissing => "Mistral API key not provided"
    case Wrapped(c) => "Failed to extract text using Mistral API: " + CaughtDetail(c)
  }

  datatype Run = Run(trace: seq<Event>, result: Result<string, ExtractError>)

  /** `Math.min(loaded * 100 / (total ?? 100), 99)`. */
  function UploadPercent(e: UploadProgress): (p: real)
    ensures 0.0 <= p <= 99.0
  {
    var total := e.total.GetOr(100);
    if total == 0 then (if e.loaded == 0 then 0.0 else 99.0)
    else
      var percent := (e.loaded as real) * 100.0 / (total as real);
      if percent < 99.0 then percent else 99.0
  }

  /** `onProgress?.(stage, value)`: one event when a callback was given. */
  function Emit(withProgress: bool, stage: string, value: real): seq<Event> {
    if withProgress then [Progress(stage, value)] else []
  }

  /** The uploading events for the first n upload-progress events. */
  function Uploading(withProgress: bool, ps: seq<UploadProgress>): (evs: seq<Event>)
    ensures !withProgress ==> evs == []
    ensures withProgress ==> |evs| == |ps|
    ensures withProgress ==> forall i :: 0 <= i < |ps| ==> evs[i] == Progress(UPLOADING, UploadPercent(ps[i]))
  {
    if withProgress then seq(|ps|, i requires 0 <= i < |ps| => Progress(UPLOADING, UploadPercent(ps[i])))
    else []
  }

  lemma UploadingSnoc(withProgress: bool, ps: seq<UploadProgress>, i: nat)
    requires i < |ps|
    ensures Uploading(withProgress, ps[..i + 1])
         == Uploading(withProgress, ps[..i]) + Emit(withProgress, UPLOADING, UploadPercent(ps[i]))
  {
    if withProgress {
      var a, b := Uploading(withProgress, ps[..i + 1]), Uploading(withProgress, ps[..i]) + [Progress(UPLOADING, UploadPercent(ps[i]))];
      assert |a| == |b|;
      forall k | 0 <= k < |a| ensures a[k] == b[k] {
        assert ps[..i + 1][k] == ps[k];
      }
    }
  }

  function OcrBody(model: string, signedUrl: string): ChatBody {
    ChatBody(model, [DocumentMessage(OCR_INSTRUCTION, DocumentUrlBlock(signedUrl))], TEMPERATURE, MAX_TOKENS)
  }

  const CONTENT_PATH := [Key("choices"), Index(0), Key("message"), Key("content")]

  /** The chat step, once the signed URL is known (`t` is the trace so far). */
  function ChatPhase(t: seq<Event>, model: string, url: string, apiKey: string,
                     withProgress: bool, chat: Reply): Run
  {
    var t' := t + Emit(withProgress, PROCESSING_START, 0.0)
      + [Sent(ChatCompletion(MISTRAL_API_CHAT, OcrBody(model, url), apiKey))];
    if !chat.Ok? then Run(t', Failure(Wrapped(AxiosFailure(chat.error))))
    else match TextOf(Chain(chat.data, CONTENT_PATH))
      case None => Run(t', Failure(Wrapped(Raised("Invalid chat completion response format"))))
      case Some(text) => Run(t' + Emit(withProgress, PROCESSING_COMPLETE, 100.0), Success(text))
  }

  /** The signed-URL step, once the upload has returned a file id. */
  function SignedUrlPhase(t: seq<Event>, model: string, fileId: string, apiKey: string,
                          withProgress: bool, io: MistralIo): Run
  {
    var t' := t + [Sent(SignedUrl(MISTRAL_API_BASE + "/files/" + fileId + "/url", 1, apiKey))];
    if !io.signedUrl.Ok? then Run(t', Failure(Wrapped(AxiosFailure(io.signedUrl.error))))
    else match TextOf(Get(io.signedUrl.data, "url"))
      case None => Run(t', Failure(Wrapped(Raised("Failed to get signed URL for file"))))
      case Some(url) => ChatPhase(t', model, url, apiKey, withProgress, io.chat)
  }

  /** Everything after the upload request and its progress events. */
  function UploadedPhase(t: seq<Event>, model: string, apiKey: string,
                         withProgress: bool, io: MistralIo): Run
  {
    if !io.upload.Ok? then Run(t, Failure(Wrapped(AxiosFailure(io.upload.error))))
    else
      var t' := t + Emit(withProgress, UPLOAD_COMPLETE, 100.0);
      match TextOf(Get(io.upload.data, "id"))
      case None => Run(t', Failure(Wrapped(Raised("Failed to upload file"))))
      case Some(fileId) => SignedUrlPhase(t', model, fileId, apiKey, withProgress, io)
  }

  /** `extractTextWithMistral` as a value: the events it produces and what it
      returns or throws. */
  function MistralRun(content: seq<Byte>, apiKey: string, stored: Option<seq<Provider>>,
                      withProgress: bool, io: MistralIo): Run
  {
    if apiKey == [] then Run([], Failure(KeyMissing))
    else
      var t := Emit(withProgress, UPLOAD_START, 0.0)
        + [Sent(Upload(MISTRAL_API_BASE + "/files", content, "application/pdf", "ocr", apiKey))]
        + Uploading(withProgress, io.uploadProgress);
      UploadedPhase(t, SelectedModel(stored), apiKey, withProgress, io)
  }

  /** The upload call: the upload-start event, the request and one uploading
      event per upload-progress event axios reports, in that order. */
  method SendUpload(content: seq<Byte>, apiKey: string, withProgress: bool, ps: seq<UploadProgress>)
    returns (trace: seq<Event>)
    ensures trace == Emit(withProgress, UPLOAD_START, 0.0)
      + [Sent(Upload(MISTRAL_API_BASE + "/files", content, "application/pdf", "ocr", apiKey))]
      + Uploading(withProgress, ps)
  {
    trace := [];
    if withProgress {
      trace := trace + [Progress(UPLOAD_START, 0.0)];
    }
    trace := trace + [Sent(Upload(MISTRAL_API_BASE + "/files", content, "application/pdf", "ocr", apiKey))];
    ghost var before := trace;
    for i := 0 to |ps|
      invariant trace == before + Uploading(withProgress, ps[..i])
    {
      UploadingSnoc(withProgress, ps, i);
      if withProgress {
        trace := trace + [Progress(UPLOADING, UploadPercent(ps[i]))];
      }
    }
    assert ps[..|ps|] == ps;
  }

  /** The chat-completion call and the parsing of its answer. */
  method RequestChat(t: seq<Event>, model: string, url: string, apiKey: string,
                     withProgress: bool, chat: Reply)
    returns (trace: seq<Event>, result: Result<string, ExtractError>)
    ensures Run(trace, result) == ChatPhase(t, model, url, apiKey, withProgress, chat)
  {
    trace := t;
    if withProgress {
      trace := trace + [Progress(PROCESSING_START, 0.0)];
    }
    trace := trace + [Sent(ChatCompletion(MISTRAL_API_CHAT, OcrBody(model, url), apiKey))];
    if !chat.Ok? {
      return trace, Failure(Wrapped(AxiosFailure(chat.error)));
    }
    var text := TextOf(Chain(chat.data, CONTENT_PATH));
    if text.None? {
      return trace, Failure(Wrapped(Raised("Invalid chat completion response format")));
    }
    if withProgress {
      trace := trace + [Progress(PROCESSING_COMPLETE, 100.0)];
    }
    return trace, Success(text.value);
  }

  /** The signed-URL call, then the chat call. */
  method RequestSignedUrl(t: seq<Event>, model: string, fileId: string, apiKey: string,
                          withProgress: bool, io: MistralIo)
    returns (trace: seq<Event>, result: Result<string, ExtractError>)
    ensures Run(trace, result) == SignedUrlPhase(t, model, fileId, apiKey, withProgress, io)
  {
    trace := t + [Sent(SignedUrl(MISTRAL_API_BASE + "/files/" + fileId + "/url", 1, apiKey))];
    if !io.signedUrl.Ok? {
      return trace, Failure(Wrapped(AxiosFailure(io.signedUrl.error)));
    }
    var url := TextOf(Get(io.signedUrl.data, "url"));
    if url.None? {
      return trace, Failure(Wrapped(Raised("Failed to get signed URL for file")));
    }
    trace, result := RequestChat(trace, model, url.value, apiKey, withProgress, io.chat);
  }

  /** `extractTextWithMistral`: emits the events one at a time and returns
      the text or the error it throws. */
  method ExtractTextWithMistral(content: seq<Byte>, apiKey: string, stored: Option<seq<Provider>>,
                                withProgress: bool, io: MistralIo)
    returns (trace: seq<Event>, result: Result<string, ExtractError>)
    ensures Run(trace, result) == MistralRun(content, apiKey, stored, withProgress, io)
  {
    if apiKey == [] {
      return [], Failure(KeyMissing);
    }
    var model := SelectedModel(stored);
    trace := SendUpload(content, apiKey, withProgress, io.uploadProgress);
    ghost var uploaded := trace;
    assert MistralRun(content, apiKey, stored, withProgress, io) == UploadedPhase(uploaded, model, apiKey, withProgress, io);
    if !io.upload.Ok? {
      return trace, Failure(Wrapped(AxiosFailure(io.upload.error)));
    }
    if withProgress {
      trace := trace + [Progress(UPLOAD_COMPLETE, 100.0)];
    }
    assert trace == uploaded + Emit(withProgress, UPLOAD_COMPLETE, 100.0);
    var fileId := TextOf(Get(io.upload.data, "id"));
    if fileId.None? {
      return trace, Failure(Wrapped(Raised("Failed to upload file")));
    }
    trace, result := RequestSignedUrl(trace, model, fileId.value, apiKey, withProgress, io);
  }

  // Properties of the protocol, stated on MistralRun.

  /** The requests in a trace, in order. */
  function Requests(trace: seq<Event>): (rs: seq<Request>)
    ensures |rs| <= |trace|
  {
    if trace == [] then []
    else (if trace[0].Sent? then [trace[0].request] else []) + Requests(trace[1..])
  }

  /** The progress events in a trace, in order. */
  function Progresses(trace: seq<Event>): (ps: seq<Event>)
    ensures |ps| <= |trace|
    ensures forall i :: 0 <= i < |ps| ==> ps[i].Progress?
  {
    if trace == [] then []
    else (if trace[0].Progress? then [trace[0]] else []) + Progresses(trace[1..])
  }

  lemma {:induction false} RequestsAppend(a: seq<Event>, b: seq<Event>)
    ensures Requests(a + b) == Requests(a) + Requests(b)
  {
    if a == [] {
      assert a + b == b;
    } else {
      var head := if a[0].Sent? then [a[0].request] else [];
      assert (a + b)[0] == a[0] && (a + b)[1..] == a[1..] + b;
      assert Requests(a + b) == head + Requests(a[1..] + b);
      RequestsAppend(a[1..], b);
      assert head + (Requests(a[1..]) + Requests(b)) == (head + Requests(a[1..])) + Requests(b);
    }
  }

  lemma {:induction false} ProgressesAppend(a: seq<Event>, b: seq<Event>)
    ensures Progresses(a + b) == Progresses(a) + Progresses(b)
  {
    if a == [] {
      assert a + b == b;
    } else {
      var head := if a[0].Progress? then [a[0]] else [];
      assert (a + b)[0] == a[0] && (a + b)[1..] == a[1..] + b;
      assert Progresses(a + b) == head + Progresses(a[1..] + b);
      ProgressesAppend(a[1..], b);
      assert head + (Progresses(a[1..]) + Progresses(b)) == (head + Progresses(a[1..])) + Progresses(b);
    }
  }

  lemma {:induction false} ProgressOnly(t: seq<Event>)
    requires forall i :: 0 <= i < |t| ==> t[i].Progress?
    ensures Requests(t) == [] && Progresses(t) == t
  {
    if t != [] {
      var rest := t[1..];
      assert forall i :: 0 <= i < |rest| ==> rest[i] == t[i + 1];
      ProgressOnly(rest);
      assert Progresses(t) == [t[0]] + Progresses(rest);
      assert [t[0]] + rest == t;
    }
  }

  function UploadRequest(content: seq<Byte>, apiKey: string): Request {
    Upload(MISTRAL_API_BASE + "/files", content, "application/pdf", "ocr", apiKey)
  }

  function SignedUrlRequest(fileId: string, apiKey: string): Request {
    SignedUrl(MISTRAL_API_BASE + "/files/" + fileId + "/url", 1, apiKey)
  }

  predicate UploadsWithId(io: MistralIo) { io.upload.Ok? && TextOf(Get(io.upload.data, "id")).Some? }
  predicate SignsUrl(io: MistralIo) { io.signedUrl.Ok? && TextOf(Get(io.signedUrl.data, "url")).Some? }
  predicate AnswersContent(io: MistralIo) { io.chat.Ok? && TextOf(Chain(io.chat.data, CONTENT_PATH)).Some? }

  /** The trace of a successful run, given its three requests. */
  function SuccessTrace(withProgress: bool, ps: seq<UploadProgress>, r1: Request, r2: Request, r3: Request): seq<Event> {
    Emit(withProgress, UPLOAD_START, 0.0) + [Sent(r1)] + Uploading(withProgress, ps)
      + Emit(withProgress, UPLOAD_COMPLETE, 100.0) + [Sent(r2)]
      + Emit(withProgress, PROCESSING_START, 0.0) + [Sent(r3)]
      + Emit(withProgress, PROCESSING_COMPLETE, 100.0)
  }

  lemma SentStep(t: seq<Event>, r: Request)
    ensures Requests(t + [Sent(r)]) == Requests(t) + [r]
    ensures Progresses(t + [Sent(r)]) == Progresses(t)
  {
    RequestsAppend(t, [Sent(r)]);
    ProgressesAppend(t, [Sent(r)]);
    assert [Sent(r)][1..] == [];
  }

  lemma ProgressStep(t: seq<Event>, u: seq<Event>)
    requires forall i :: 0 <= i < |u| ==> u[i].Progress?
    ensures Requests(t + u) == Requests(t)
    ensures Progresses(t + u) == Progresses(t) + u
  {
    RequestsAppend(t, u);
    ProgressesAppend(t, u);
    ProgressOnly(u);
  }

  lemma SuccessTraceProjections(withProgress: bool, ps: seq<UploadProgress>, r1: Request, r2: Request, r3: Request)
    ensures Requests(SuccessTrace(withProgress, ps, r1, r2, r3)) == [r1, r2, r3]
    ensures Progresses(SuccessTrace(withProgress, ps, r1, r2, r3)) == Emit(withProgress, UPLOAD_START, 0.0)
      + Uploading(withProgress, ps) + Emit(withProgress, UPLOAD_COMPLETE, 100.0)
      + Emit(withProgress, PROCESSING_START, 0.0) + Emit(withProgress, PROCESSING_COMPLETE, 100.0)
  {
    var e1, e2, e3, e4, e5 := Emit(withProgress, UPLOAD_START, 0.0), Uploading(withProgress, ps),
      Emit(withProgress, UPLOAD_COMPLETE, 100.0), Emit(withProgress, PROCESSING_START, 0.0),
      Emit(withProgress, PROCESSING_COMPLETE, 100.0);
    ProgressOnly(e1);
    var t1 := e1;
    SentStep(t1, r1);
    var t2 := t1 + [Sent(r1)];
    ProgressStep(t2, e2);
    var t3 := t2 + e2;
    ProgressStep(t3, e3);
    var t4 := t3 + e3;
    SentStep(t4, r2);
    var t5 := t4 + [Sent(r2)];
    ProgressStep(t5, e4);
    var t6 := t5 + e4;
    SentStep(t6, r3);
    var t7 := t6 + [Sent(r3)];
    ProgressStep(t7, e5);
    var t8 := t7 + e5;
    assert t8 == SuccessTrace(withProgress, ps, r1, r2, r3);
  }

  /** A run succeeds exactly when all three calls succeed and yield an id, a
      URL and a non-empty answer. It then issues exactly the three requests in
      order, reports upload-start(0), the uploading events, upload-complete(100),
      processing-start(0) and processing-complete(100), and returns the answer. */
  lemma MistralSuccess(content: seq<Byte>, apiKey: string, stored: Option<seq<Provider>>,
                       withProgress: bool, io: MistralIo)
    ensures var run := MistralRun(content, apiKey, stored, withProgress, io);
      run.result.Success? <==> apiKey != [] && UploadsWithId(io) && SignsUrl(io) && AnswersContent(io)
    ensures var run := MistralRun(content, apiKey, stored, withProgress, io);
      run.result.Success? ==>
        && run.result.value == TextOf(Chain(io.chat.data, CONTENT_PATH)).value
        && Requests(run.trace) == [
             UploadRequest(content, apiKey),
             SignedUrlRequest(TextOf(Get(io.upload.data, "id")).value, apiKey),
             ChatCompletion(MISTRAL_API_CHAT,
               OcrBody(SelectedModel(stored), TextOf(Get(io.signedUrl.data, "url")).value), apiKey)]
        && Progresses(run.trace) == Emit(withProgress, UPLOAD_START, 0.0)
             + Uploading(withProgress, io.uploadProgress)
             + Emit(withProgress, UPLOAD_COMPLETE, 100.0)
             + Emit(withProgress, PROCESSING_START, 0.0)
             + Emit(withProgress, PROCESSING_COMPLETE, 100.0)
    ensures var run := MistralRun(content, apiKey, stored, withProgress, io);
      run.result.Success? ==>
        run.trace == SuccessTrace(withProgress, io.uploadProgress,
          UploadRequest(content, apiKey),
          SignedUrlRequest(TextOf(Get(io.upload.data, "id")).value, apiKey),
          ChatCompletion(MISTRAL_API_CHAT,
            OcrBody(SelectedModel(stored), TextOf(Get(io.signedUrl.data, "url")).value), apiKey))
  {
    var run := MistralRun(content, apiKey, stored, withProgress, io);
    if run.result.Success? {
      var r1 := UploadRequest(content, apiKey);
      var r2 := SignedUrlRequest(TextOf(Get(io.upload.data, "id")).value, apiKey);
      var r3 := ChatCompletion(MISTRAL_API_CHAT,
        OcrBody(SelectedModel(stored), TextOf(Get(io.signedUrl.data, "url")).value), apiKey);
      assert run.trace == SuccessTrace(withProgress, io.uploadProgress, r1, r2, r3);
      SuccessTraceProjections(withProgress, io.uploadProgress, r1, r2, r3);
    }
  }

  /** The chat step sends the chat request after processing-start, and
      reports processing-complete only when it returns the answer. */
  lemma ChatPhaseFacts(t: seq<Event>, model: string, url: string, apiKey: string,
                       withProgress: bool, chat: Reply)
    ensures var run := ChatPhase(t, model, url, apiKey, withProgress, chat);
      run.trace == t + Emit(withProgress, PROCESSING_START, 0.0)
        + [Sent(ChatCompletion(MISTRAL_API_CHAT, OcrBody(model, url), apiKey))]
        + (if run.result.Success? then Emit(withProgress, PROCESSING_COMPLETE, 100.0) else [])
    ensures var run := ChatPhase(t, model, url, apiKey, withProgress, chat);
      Requests(run.trace) == Requests(t) + [ChatCompletion(MISTRAL_API_CHAT, OcrBody(model, url), apiKey)]
    ensures var run := ChatPhase(t, model, url, apiKey, withProgress, chat);
      Progresses(run.trace) == Progresses(t) + Emit(withProgress, PROCESSING_START, 0.0)
        + (if run.result.Success? then Emit(withProgress, PROCESSING_COMPLETE, 100.0) else [])
    ensures var run := ChatPhase(t, model, url, apiKey, withProgress, chat);
      run.result == if !chat.Ok? then Failure(Wrapped(AxiosFailure(chat.error)))
        else if TextOf(Chain(chat.data, CONTENT_PATH)).None?
        then Failure(Wrapped(Raised("Invalid chat completion response format")))
        else Success(TextOf(Chain(chat.data, CONTENT_PATH)).value)
  {
    var r := ChatCompletion(MISTRAL_API_CHAT, OcrBody(model, url), apiKey);
    var t1 := t + Emit(withProgress, PROCESSING_START, 0.0);
    ProgressStep(t, Emit(withProgress, PROCESSING_START, 0.0));
    SentStep(t1, r);
    ProgressStep(t1 + [Sent(r)], Emit(withProgress, PROCESSING_COMPLETE, 100.0));
  }

  /** The signed-URL step sends its request; it goes on to the chat step
      only when the reply carries a URL. */
  lemma SignedUrlPhaseFacts(t: seq<Event>, model: string, fileId: string, apiKey: string,
                            withProgress: bool, io: MistralIo)
    ensures var run := SignedUrlPhase(t, model, fileId, apiKey, withProgress, io);
      if io.signedUrl.Ok? && TextOf(Get(io.signedUrl.data, "url")).Some? then
        run == ChatPhase(t + [Sent(SignedUrlRequest(fileId, apiKey))], model,
          TextOf(Get(io.signedUrl.data, "url")).value, apiKey, withProgress, io.chat)
      else
        && Requests(run.trace) == Requests(t) + [SignedUrlRequest(fileId, apiKey)]
        && Progresses(run.trace) == Progresses(t)
        && run.result == if !io.signedUrl.Ok? then Failure(Wrapped(AxiosFailure(io.signedUrl.error)))
           else Failure(Wrapped(Raised("Failed to get signed URL for file")))
  {
    SentStep(t, SignedUrlRequest(fileId, apiKey));
  }

  /** After the upload request: a rejected upload ends the run at once; an
      answer without an id ends it after upload-complete. */
  lemma UploadedPhaseFacts(t: seq<Event>, model: string, apiKey: string,
                           withProgress: bool, io: MistralIo)
    ensures var run := UploadedPhase(t, model, apiKey, withProgress, io);
      !io.upload.Ok? ==> run == Run(t, Failure(Wrapped(AxiosFailure(io.upload.error))))
    ensures var run := UploadedPhase(t, model, apiKey, withProgress, io);
      io.upload.Ok? && TextOf(Get(io.upload.data, "id")).None? ==>
        && Requests(run.trace) == Requests(t)
        && Progresses(run.trace) == Progresses(t) + Emit(withProgress, UPLOAD_COMPLETE, 100.0)
        && run.result == Failure(Wrapped(Raised("Failed to upload file")))
    ensures var run := UploadedPhase(t, model, apiKey, withProgress, io);
      io.upload.Ok? && TextOf(Get(io.upload.data, "id")).Some? ==>
        run == SignedUrlPhase(t + Emit(withProgress, UPLOAD_COMPLETE, 100.0), model,
          TextOf(Get(io.upload.data, "id")).value, apiKey, withProgress, io)
  {
    ProgressStep(t, Emit(withProgress, UPLOAD_COMPLETE, 100.0));
  }

  /** The trace every run with a key has when the upload call returns. */
  function UploadTrace(content: seq<Byte>, apiKey: string, withProgress: bool, ps: seq<UploadProgress>): seq<Event> {
    Emit(withProgress, UPLOAD_START, 0.0) + [Sent(UploadRequest(content, apiKey))] + Uploading(withProgress, ps)
  }

  /** The prefix every run with a key starts with. */
  lemma UploadPrefix(content: seq<Byte>, apiKey: string, withProgress: bool, ps: seq<UploadProgress>)
    ensures Requests(UploadTrace(content, apiKey, withProgress, ps)) == [UploadRequest(content, apiKey)]
    ensures Progresses(UploadTrace(content, apiKey, withProgress, ps))
      == Emit(withProgress, UPLOAD_START, 0.0) + Uploading(withProgress, ps)
  {
    var e := Emit(withProgress, UPLOAD_START, 0.0);
    ProgressOnly(e);
    SentStep(e, UploadRequest(content, apiKey));
    ProgressStep(e + [Sent(UploadRequest(content, apiKey))], Uploading(withProgress, ps));
  }

  /** A rejected upload ends the run with only the upload request sent. */
  lemma MistralUploadRejected(content: seq<Byte>, apiKey: string, stored: Option<seq<Provider>>,
                              withProgress: bool, io: MistralIo)
    requires apiKey != [] && !io.upload.Ok?
    ensures var run := MistralRun(content, apiKey, stored, withProgress, io);
      && Requests(run.trace) == [UploadRequest(content, apiKey)]
      && Progresses(run.trace) == Emit(withProgress, UPLOAD_START, 0.0) + Uploading(withProgress, io.uploadProgress)
      && run.result == Failure(Wrapped(AxiosFailure(io.upload.error)))
  {
    var t := UploadTrace(content, apiKey, withProgress, io.uploadProgress);
    UploadPrefix(content, apiKey, withProgress, io.uploadProgress);
    UploadedPhaseFacts(t, SelectedModel(stored), apiKey, withProgress, io);
  }

  /** An upload answer without an id ends the run after upload-complete. */
  lemma MistralNoFileId(content: seq<Byte>, apiKey: string, stored: Option<seq<Provider>>,
                        withProgress: bool, io: MistralIo)
    requires apiKey != [] && io.upload.Ok? && TextOf(Get(io.upload.data, "id")).None?
    ensures var run := MistralRun(content, apiKey, stored, withProgress, io);
      && Requests(run.trace) == [UploadRequest(content, apiKey)]
      && Progresses(run.trace) == Emit(withProgress, UPLOAD_START, 0.0) + Uploading(withProgress, io.uploadProgress)
           + Emit(withProgress, UPLOAD_COMPLETE, 100.0)
      && run.result == Failure(Wrapped(Raised("Failed to upload file")))
  {
    var t := UploadTrace(content, apiKey, withProgress, io.uploadProgress);
    UploadPrefix(content, apiKey, withProgress, io.uploadProgress);
    UploadedPhaseFacts(t, SelectedModel(stored), apiKey, withProgress, io);
  }

  /** The trace after the upload-complete event of a run whose upload
      returned an id. */
  lemma UploadedTrace(content: seq<Byte>, apiKey: string, withProgress: bool, io: MistralIo)
    ensures var t := UploadTrace(content, apiKey, withProgress, io.uploadProgress) + Emit(withProgress, UPLOAD_COMPLETE, 100.0);
      && Requests(t) == [UploadRequest(content, apiKey)]
      && Progresses(t) == Emit(withProgress, UPLOAD_START, 0.0) + Uploading(withProgress, io.uploadProgress)
           + Emit(withProgress, UPLOAD_COMPLETE, 100.0)
  {
    var t := UploadTrace(content, apiKey, withProgress, io.uploadProgress);
    UploadPrefix(content, apiKey, withProgress, io.uploadProgress);
    ProgressStep(t, Emit(withProgress, UPLOAD_COMPLETE, 100.0));
  }

  /** A failed signed-URL call ends the run after its request. */
  lemma MistralSignedUrlFails(content: seq<Byte>, apiKey: string, stored: Option<seq<Provider>>,
                              withProgress: bool, io: MistralIo)
    requires apiKey != [] && UploadsWithId(io) && !SignsUrl(io)
    ensures var run := MistralRun(content, apiKey, stored, withProgress, io);
      && Requests(run.trace) == [UploadRequest(content, apiKey),
           SignedUrlRequest(TextOf(Get(io.upload.data, "id")).value, apiKey)]
      && Progresses(run.trace) == Emit(withProgress, UPLOAD_START, 0.0) + Uploading(withProgress, io.uploadProgress)
           + Emit(withProgress, UPLOAD_COMPLETE, 100.0)
      && run.result == if !io.signedUrl.Ok? then Failure(Wrapped(AxiosFailure(io.signedUrl.error)))
         else Failure(Wrapped(Raised("Failed to get signed URL for file")))
  {
    var t := UploadTrace(content, apiKey, withProgress, io.uploadProgress);
    var t2 := t + Emit(withProgress, UPLOAD_COMPLETE, 100.0);
    var model, fileId := SelectedModel(stored), TextOf(Get(io.upload.data, "id")).value;
    UploadedTrace(content, apiKey, withProgress, io);
    UploadedPhaseFacts(t, model, apiKey, withProgress, io);
    SignedUrlPhaseFacts(t2, model, fileId, apiKey, withProgress, io);
  }

  /** A failed chat call ends the run after the upload, the signed-URL
      request and the chat request, and after the processing-start event,
      without processing-complete. */
  lemma MistralChatFails(content: seq<Byte>, apiKey: string, stored: Option<seq<Provider>>,
                         withProgress: bool, io: MistralIo)
    requires apiKey != [] && UploadsWithId(io) && SignsUrl(io) && !AnswersContent(io)
    ensures var run := MistralRun(content, apiKey, stored, withProgress, io);
      && Requests(run.trace) == [UploadRequest(content, apiKey),
           SignedUrlRequest(TextOf(Get(io.upload.data, "id")).value, apiKey),
           ChatCompletion(MISTRAL_API_CHAT,
             OcrBody(SelectedModel(stored), TextOf(Get(io.signedUrl.data, "url")).value), apiKey)]
      && Progresses(run.trace) == Emit(withProgress, UPLOAD_START, 0.0) + Uploading(withProgress, io.uploadProgress)
           + Emit(withProgress, UPLOAD_COMPLETE, 100.0) + Emit(withProgress, PROCESSING_START, 0.0)
      && run.result == if !io.chat.Ok? then Failure(Wrapped(AxiosFailure(io.chat.error)))
         else Failure(Wrapped(Raised("Invalid chat completion response format")))
  {
    var t := UploadTrace(content, apiKey, withProgress, io.uploadProgress);
    var t2 := t + Emit(withProgress, UPLOAD_COMPLETE, 100.0);
    var model, fileId := SelectedModel(stored), TextOf(Get(io.upload.data, "id")).value;
    var t3 := t2 + [Sent(SignedUrlRequest(fileId, apiKey))];
    UploadedTrace(content, apiKey, withProgress, io);
    UploadedPhaseFacts(t, model, apiKey, withProgress, io);
    SignedUrlPhaseFacts(t2, model, fileId, apiKey, withProgress, io);
    SentStep(t2, SignedUrlRequest(fileId, apiKey));
    ChatPhaseFacts(t3, model, TextOf(Get(io.signedUrl.data, "url")).value, apiKey, withProgress, io.chat);
  }

  /** How each failure of the protocol ends a run: which requests went out,
      which progress events were reported and what is thrown. A failure
      never reports processing-complete. */
  lemma MistralFailures(content: seq<Byte>, apiKey: string, stored: Option<seq<Provider>>,
                        withProgress: bool, io: MistralIo)
    ensures apiKey == [] ==> MistralRun(content, apiKey, stored, withProgress, io) == Run([], Failure(KeyMissing))
    ensures var run := MistralRun(content, apiKey, stored, withProgress, io);
      apiKey != [] && !io.upload.Ok? ==>
        && Requests(run.trace) == [UploadRequest(content, apiKey)]
        && Progresses(run.trace) == Emit(withProgress, UPLOAD_START, 0.0) + Uploading(withProgress, io.uploadProgress)
        && run.result == Failure(Wrapped(AxiosFailure(io.upload.error)))
    ensures var run := MistralRun(content, apiKey, stored, withProgress, io);
      apiKey != [] && io.upload.Ok? && TextOf(Get(io.upload.data, "id")).None? ==>
        && Requests(run.trace) == [UploadRequest(content, apiKey)]
        && Progresses(run.trace) == Emit(withProgress, UPLOAD_START, 0.0) + Uploading(withProgress, io.uploadProgress)
             + Emit(withProgress, UPLOAD_COMPLETE, 100.0)
        && run.result == Failure(Wrapped(Raised("Failed to upload file")))
    ensures var run := MistralRun(content, apiKey, stored, withProgress, io);
      apiKey != [] && UploadsWithId(io) && !SignsUrl(io) ==>
        && Requests(run.trace) == [UploadRequest(content, apiKey),
             SignedUrlRequest(TextOf(Get(io.upload.data, "id")).value, apiKey)]
        && Progresses(run.trace) == Emit(withProgress, UPLOAD_START, 0.0) + Uploading(withProgress, io.uploadProgress)
             + Emit(withProgress, UPLOAD_COMPLETE, 100.0)
        && run.result == if !io.signedUrl.Ok? then Failure(Wrapped(AxiosFailure(io.signedUrl.error)))
           else Failure(Wrapped(Raised("Failed to get signed URL for file")))
    ensures var run := MistralRun(content, apiKey, stored, withProgress, io);
      apiKey != [] && UploadsWithId(io) && SignsUrl(io) && !AnswersContent(io) ==>
        && Requests(run.trace) == [UploadRequest(content, apiKey),
             SignedUrlRequest(TextOf(Get(io.upload.data, "id")).value, apiKey),
             ChatCompletion(MISTRAL_API_CHAT,
               OcrBody(SelectedModel(stored), TextOf(Get(io.signedUrl.data, "url")).value), apiKey)]
        && Progresses(run.trace) == Emit(withProgress, UPLOAD_START, 0.0) + Uploading(withProgress, io.uploadProgress)
             + Emit(withProgress, UPLOAD_COMPLETE, 100.0) + Emit(withProgress, PROCESSING_START, 0.0)
        && run.result == if !io.chat.Ok? then Failure(Wrapped(AxiosFailure(io.chat.error)))
           else Failure(Wrapped(Raised("Invalid chat completion response format")))
  {
    if apiKey != [] {
      if !io.upload.Ok? {
        MistralUploadRejected(content, apiKey, stored, withProgress, io);
      } else if TextOf(Get(io.upload.data, "id")).None? {
        MistralNoFileId(content, apiKey, stored, withProgress, io);
      } else if !SignsUrl(io) {
        MistralSignedUrlFails(content, apiKey, stored, withProgress, io);
      } else if !AnswersContent(io) {
        MistralChatFails(content, apiKey, stored, withProgress, io);
      }
    }
  }
}
