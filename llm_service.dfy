/** The multi-provider client of lib/api/llm-service.ts: the per-provider
    request builders with their base64 validation, the model lookup, the
    extraction call with its answer paths and error wrapping, and the model
    listing with its per-provider capability filters. */
module LlmService {
  import opened Wrappers
  import opened JsValue
  import opened Types
  import opened Chat
  import opened Transport
  import opened Base64
  import Lists
  import Mistral

  /** The four providers the client has endpoints and builders for. */
  predicate IsKnownProvider(provider: string) {
    provider == "mistral" || provider == "openai" || provider == "deepseek" || provider == "claude"
  }

  /** `API_ENDPOINTS[provider]`. */
  function Endpoint(provider: string): (url: Option<string>)
    ensures url.Some? <==> IsKnownProvider(provider)
  {
    if provider == "mistral" then Some("https://api.mistral.ai/v1")
    else if provider == "openai" then Some("https://api.openai.com/v1")
    else if provider == "deepseek" then Some("https://api.deepseek.com/v1")
    else if provider == "claude" then Some("https://api.anthropic.com/v1")
    else None
  }

  /** A template literal's rendering of `API_ENDPOINTS[provider]`. */
  function EndpointText(provider: string): string {
    Endpoint(provider).GetOr("undefined")
  }

  const PDF_INSTRUCTION := "Extract and return all the text content from this PDF document"
  const MISTRAL_BASE64_INSTRUCTION :=
    "Extract and return all the text content from this PDF document represented as a base64 string."
  const DATA_URL_PREFIX := "data:application/pdf;base64,"

  /** The single user message a builder makes for a payload. */
  function PayloadMessage(provider: string, payload: string): Message
    requires IsKnownProvider(provider)
  {
    if provider == "mistral" then DocumentMessage(MISTRAL_BASE64_INSTRUCTION, ImageUrlBlock(DATA_URL_PREFIX + payload))
    else if provider == "openai" then DocumentMessage(PDF_INSTRUCTION, ImageUrlLinkBlock(DATA_URL_PREFIX + payload))
    else if provider == "deepseek" then DocumentMessage(PDF_INSTRUCTION, ImageDataBlock(payload))
    else DocumentMessage(PDF_INSTRUCTION, ImageSourceBlock("base64", payload))
  }

  /** The payload a document block carries, read back from its own field:
      the text after the data-URL prefix, or the data field. */
  function BlockPayload(b: Block): Option<string> {
    match b
    case ImageUrlBlock(u) =>
      if HasPrefix(u, DATA_URL_PREFIX) then Some(u[|DATA_URL_PREFIX|..]) else None
    case ImageUrlLinkBlock(u) =>
      if HasPrefix(u, DATA_URL_PREFIX) then Some(u[|DATA_URL_PREFIX|..]) else None
    case ImageDataBlock(d) => Some(d)
    case ImageSourceBlock(t, d) => if t == "base64" then Some(d) else None
    case _ => None
  }

  /** `requestFormatters[provider](model, messages, base64Content)`; an
      absent payload is `None`. Only the mistral builder validates: a
      supplied payload must be non-empty and pass the shape test, and the
      messages sent must not be empty. The others take a falsy payload as
      absent and pass the messages through. */
  function FormatRequest(provider: string, model: string, messages: seq<Message>, payload: Option<string>)
    : (r: Result<ChatBody, string>)
    requires IsKnownProvider(provider)
    ensures r.Success? ==> r.value.model == model && r.value.temperature == TEMPERATURE && r.value.maxTokens == MAX_TOKENS
    ensures r.Failure? <==> (provider == "mistral"
      && ((payload.Some? && (payload.value == [] || !TestShape(payload.value))) || (payload.None? && messages == [])))
    ensures provider == "mistral" && payload == Some([]) ==> r == Failure("Invalid base64 content provided")
    ensures provider == "mistral" && payload.Some? && payload.value != [] && !TestShape(payload.value) ==>
      r == Failure("Invalid base64 format")
    ensures provider == "mistral" && payload.None? && messages == [] ==> r == Failure("Messages must be a non-empty array")
    ensures r.Success? && payload.Some? && payload.value != [] ==> r.value.messages == [PayloadMessage(provider, payload.value)]
    ensures r.Success? && (payload.None? || payload.value == []) ==> r.value.messages == messages
  {
    if provider == "mistral" then
      if payload.Some? && payload.value == [] then Failure("Invalid base64 content provided")
      else if payload.Some? && !TestShape(payload.value) then Failure("Invalid base64 format")
      else
        var formatted := if payload.Some? then [PayloadMessage(provider, payload.value)] else messages;
        if formatted == [] then Failure("Messages must be a non-empty array")
        else Success(ChatBody(model, formatted, TEMPERATURE, MAX_TOKENS))
    else
      var formatted := if payload.Some? && payload.value != [] then [PayloadMessage(provider, payload.value)] else messages;
      Success(ChatBody(model, formatted, TEMPERATURE, MAX_TOKENS))
  }

  /** Every builder ignores the messages when given a payload it accepts,
      and sends one user message whose second block holds the payload
      unaltered. */
  lemma PayloadCarried(provider: string, model: string, messages: seq<Message>, payload: string)
    requires IsKnownProvider(provider) && payload != []
    requires provider == "mistral" ==> TestShape(payload)
    ensures var r := FormatRequest(provider, model, messages, Some(payload));
      && r.Success?
      && |r.value.messages| == 1
      && r.value.messages[0].role == "user"
      && r.value.messages[0].content.Blocks?
      && |r.value.messages[0].content.blocks| == 2
      && r.value.messages[0].content.blocks[0].TextBlock?
      && BlockPayload(r.value.messages[0].content.blocks[1]) == Some(payload)
  {
    var u := DATA_URL_PREFIX + payload;
    assert HasPrefix(u, DATA_URL_PREFIX) && u[|DATA_URL_PREFIX|..] == payload;
  }

  /** `defaultModels[provider]`. */
  function DefaultModelFor(provider: string): (m: Option<string>)
    ensures m.Some? <==> IsKnownProvider(provider)
    ensures m.Some? ==> m.value != []
  {
    if provider == "mistral" then Some(Mistral.DEFAULT_MODEL)
    else if provider == "openai" then Some("gpt-4-vision-preview")
    else if provider == "deepseek" then Some("deepseek-vision")
    else if provider == "claude" then Some("claude-3-opus-20240229")
    else None
  }

  /** `getSelectedModel(provider)`: unlike the Mistral client's lookup it
      fails when nothing is stored or the provider is missing or inactive.
      It otherwise yields the first model, or the provider's default, which
      is `undefined` (`None`) for a provider with no default. */
  function LlmSelectedModel(provider: string, stored: Option<seq<Provider>>): (r: Result<Option<string>, string>)
    ensures stored.None? ==> r == Failure("API providers not configured")
    ensures stored.Some? ==>
      var i := Lists.FindFirst(stored.value, (p: Provider) => p.id == provider);
      && (i.None? ==> r == Failure(provider + " provider not found"))
      && (i.Some? && !stored.value[i.value].isActive ==> r == Failure(provider + " provider is not active"))
      && (i.Some? && stored.value[i.value].isActive ==>
            r == Success(
              var ms := stored.value[i.value].models;
              if |ms| > 0 && ms[0] != [] then Some(ms[0]) else DefaultModelFor(provider)))
    ensures r.Success? && IsKnownProvider(provider) ==> r.value.Some? && r.value.value != []
  {
    match stored
    case None => Failure("API providers not configured")
    case Some(providers) =>
      match Lists.FindFirst(providers, (p: Provider) => p.id == provider)
      case None => Failure(provider + " provider not found")
      case Some(i) =>
        var p := providers[i];
        if !p.isActive then Failure(provider + " provider is not active")
        else if |p.models| > 0 && p.models[0] != [] then Success(Some(p.models[0]))
        else Success(DefaultModelFor(provider))
  }

  /** For "mistral" the two lookups agree wherever this one succeeds, and
      where it fails the Mistral client falls back to its default model. */
  lemma SelectedModelsAgree(stored: Option<seq<Provider>>)
    ensures LlmSelectedModel("mistral", stored).Success? ==>
      LlmSelectedModel("mistral", stored).value == Some(Mistral.SelectedModel(stored))
    ensures LlmSelectedModel("mistral", stored).Failure? ==> Mistral.SelectedModel(stored) == Mistral.DEFAULT_MODEL
  {
  }

  /** Where each provider's answer sits in the response body. */
  function AnswerPath(provider: string): seq<Step> {
    if provider == "deepseek" then [Key("output"), Key("content")]
    else if provider == "claude" then [Key("content"), Index(0), Key("text")]
    else [Key("choices"), Index(0), Key("message"), Key("content")]
  }

  datatype LlmRequest = LlmRequest(url: string, body: ChatBody, apiKey: string)

  /** What one extraction call sends and what it returns or throws. */
  datatype LlmRun = LlmRun(requests: seq<LlmRequest>, result: Result<string, string>)

  /** The message the outer `catch` throws for any failure inside the try. */
  function Wrap(provider: string, c: Cause): (msg: string)
    ensures HasPrefix(msg, WrapPrefix(provider))
  {
    var prefix := WrapPrefix(provider);
    assert (prefix + CaughtDetail(c))[..|prefix|] == prefix;
    prefix + CaughtDetail(c)
  }

  function WrapPrefix(provider: string): string {
    "Failed to extract text using " + provider + " API: "
  }

  function Fail(provider: string, message: string): (run: LlmRun)
    ensures run.requests == [] && run.result.Failure?
    ensures HasPrefix(run.result.error, WrapPrefix(provider))
  {
    LlmRun([], Failure(Wrap(provider, Raised(message))))
  }

  /** The extraction once the buffer has been converted to base64. */
  function AfterEncoding(encoded: string, provider: string, apiKey: string,
                         stored: Option<seq<Provider>>, reply: Reply): (run: LlmRun)
    ensures run.result.Failure? ==> HasPrefix(run.result.error, WrapPrefix(provider))
    ensures |run.requests| <= 1
    ensures !IsKnownProvider(provider) ==> run.requests == []
    ensures run.result.Success? <==>
      && IsKnownProvider(provider) && LlmSelectedModel(provider, stored).Success?
      && (provider == "mistral" ==> encoded != [] && TestShape(encoded))
      && reply.Ok? && TextOf(Chain(reply.data, AnswerPath(provider))).Some?
  {
    match LlmSelectedModel(provider, stored)
    case Failure(e) => Fail(provider, e)
    case Success(model) =>
      if !IsKnownProvider(provider) then Fail(provider, "Unsupported provider: " + provider)
      else match FormatRequest(provider, model.value, [], Some(encoded))
        case Failure(e) => Fail(provider, e)
        case Success(body) =>
          var request := LlmRequest(EndpointText(provider) + "/chat/completions", body, apiKey);
          match reply
          case Rejected(err) => LlmRun([request], Failure(Wrap(provider, AxiosFailure(err))))
          case Ok(data) =>
            match TextOf(Chain(data, AnswerPath(provider)))
            case None =>
              LlmRun([request], Failure(Wrap(provider, Raised("Invalid " + provider + " API response format"))))
            case Some(text) => LlmRun([request], Success(text))
  }

  /** `extractTextWithLLM`. An empty key fails unwrapped; every later
      failure carries the provider's prefix. */
  function ExtractTextWithLlm(content: seq<Byte>, provider: string, apiKey: string,
                              stored: Option<seq<Provider>>, reply: Reply): (run: LlmRun)
    ensures apiKey == [] ==> run == LlmRun([], Failure(provider + " API key not provided"))
    ensures apiKey != [] && run.result.Failure? ==> HasPrefix(run.result.error, WrapPrefix(provider))
    ensures |run.requests| <= 1
  {
    if apiKey == [] then LlmRun([], Failure(provider + " API key not provided"))
    else if content == [] then Fail(provider, "Input file is empty")
    else EncodeAndSend(content, provider, apiKey, stored, reply)
  }

  /** The extraction of a non-empty buffer: its base64 conversion and the
      two checks on the result, then the request. */
  function EncodeAndSend(content: seq<Byte>, provider: string, apiKey: string,
                         stored: Option<seq<Provider>>, reply: Reply): (run: LlmRun)
    ensures run.result.Failure? ==> HasPrefix(run.result.error, WrapPrefix(provider))
    ensures |run.requests| <= 1
  {
    var encoded := Encode(content);
    if encoded == [] then Fail(provider, "Failed to convert file to base64: Base64 conversion failed")
    else if !TestShape(encoded) then
      Fail(provider, "Failed to convert file to base64: Invalid base64 format generated")
    else AfterEncoding(encoded, provider, apiKey, stored, reply)
  }

  /** For a non-empty buffer neither check on the encoding can fail: the
      call goes straight on with the encoding. */
  lemma EncodingChecksPass(content: seq<Byte>, provider: string, apiKey: string,
                           stored: Option<seq<Provider>>, reply: Reply)
    requires apiKey != [] && content != []
    ensures ExtractTextWithLlm(content, provider, apiKey, stored, reply)
         == AfterEncoding(Encode(content), provider, apiKey, stored, reply)
  {
    EncodedPassesChecks(content);
  }

  /** An extraction succeeds exactly when the buffer is non-empty, the
      provider is known and configured, and the reply holds an answer on the
      provider's path. An unknown provider sends nothing. */
  lemma LlmOutcome(content: seq<Byte>, provider: string, apiKey: string,
                   stored: Option<seq<Provider>>, reply: Reply)
    requires apiKey != []
    ensures var run := ExtractTextWithLlm(content, provider, apiKey, stored, reply);
      run.result.Success? <==>
        content != [] && IsKnownProvider(provider) && LlmSelectedModel(provider, stored).Success?
        && reply.Ok? && TextOf(Chain(reply.data, AnswerPath(provider))).Some?
    ensures !IsKnownProvider(provider) ==> ExtractTextWithLlm(content, provider, apiKey, stored, reply).requests == []
  {
    if content != [] {
      EncodingChecksPass(content, provider, apiKey, stored, reply);
      EncodedPassesChecks(content);
    }
  }

  /** A successful extraction returns the answer unchanged and sends one
      request to the provider's chat-completions endpoint, with the key and
      the selected model, whose payload decodes back to the buffer. */
  lemma LlmSuccess(content: seq<Byte>, provider: string, apiKey: string,
                   stored: Option<seq<Provider>>, reply: Reply)
    requires apiKey != [] && content != [] && IsKnownProvider(provider)
    requires LlmSelectedModel(provider, stored).Success?
    requires reply.Ok? && TextOf(Chain(reply.data, AnswerPath(provider))).Some?
    ensures var run := ExtractTextWithLlm(content, provider, apiKey, stored, reply);
      && run.result == Success(TextOf(Chain(reply.data, AnswerPath(provider))).value)
      && |run.requests| == 1
      && run.requests[0].url == Endpoint(provider).value + "/chat/completions"
      && run.requests[0].apiKey == apiKey
      && run.requests[0].body.model == LlmSelectedModel(provider, stored).value.value
      && |run.requests[0].body.messages| == 1
      && run.requests[0].body.messages[0].content.Blocks?
      && |run.requests[0].body.messages[0].content.blocks| == 2
      && BlockPayload(run.requests[0].body.messages[0].content.blocks[1]).Some?
      && Decode(BlockPayload(run.requests[0].body.messages[0].content.blocks[1]).value) == Some(content)
  {
    var encoded := Encode(content);
    EncodingChecksPass(content, provider, apiKey, stored, reply);
    EncodedPassesChecks(content);
    DecodeEncode(content);
    PayloadCarried(provider, LlmSelectedModel(provider, stored).value.value, [], encoded);
  }

  /** The capability filter of `getAvailableModels` for each provider;
      `None` is the TypeError the filter throws. */
  function VisionCapable(provider: string, m: Value): (r: Option<bool>)
    ensures IsNullish(m) ==> r.None?
  {
    if IsNullish(m) then None
    else
      var caps := Get(m, "capabilities");
      if provider == "openai" then (if IsNullish(caps) then Some(false) else Includes(caps, "vision"))
      else Includes(caps, "vision")
  }

  /** Where each provider's model list sits in the response body. */
  function ModelListKey(provider: string): string {
    if provider == "mistral" || provider == "openai" then "data" else "models"
  }

  function Keep(provider: string): Value -> Option<bool> {
    if provider == "mistral" then Mistral.ChatCapable else (m: Value) => VisionCapable(provider, m)
  }

  /** `getAvailableModels`: the URL it requests (none for an empty key),
      and the ids or the error. An unknown provider is still requested, at
      "undefined/models", and then fails. */
  function GetAvailableModels(provider: string, apiKey: string, reply: Reply): (r: (seq<string>, Result<seq<Value>, string>))
    ensures apiKey == [] ==> r == ([], Failure(provider + " API key not provided"))
    ensures apiKey != [] ==> r.0 == [EndpointText(provider) + "/models"]
    ensures apiKey != [] && r.1.Failure? ==> r.1.error == "Failed to fetch available models from " + provider + " API"
    ensures r.1.Success? <==>
      apiKey != [] && IsKnownProvider(provider) && reply.Ok?
      && Get(reply.data, ModelListKey(provider)).Arr?
      && SelectIds(Get(reply.data, ModelListKey(provider)).elems, Keep(provider)).Some?
    ensures r.1.Success? ==> r.1.value == SelectIds(Get(reply.data, ModelListKey(provider)).elems, Keep(provider)).value
    ensures r.1.Success? ==>
      r.1.value == Ids(Lists.Filter(Get(reply.data, ModelListKey(provider)).elems, Kept(Keep(provider))))
  {
    if apiKey == [] then ([], Failure(provider + " API key not provided"))
    else
      var urls := [EndpointText(provider) + "/models"];
      var failed := Failure("Failed to fetch available models from " + provider + " API");
      if !reply.Ok? || !IsKnownProvider(provider) then (urls, failed)
      else
        var list := Get(reply.data, ModelListKey(provider));
        if !list.Arr? then (urls, failed)
        else match SelectIds(list.elems, Keep(provider))
          case None => (urls, failed)
          case Some(ids) =>
            SelectIdsFilterMap(list.elems, Keep(provider));
            (urls, Success(ids))
  }

  /** The openai filter keeps a model whose capabilities list names
      "vision" and drops one without capabilities; the deepseek and claude
      filters throw on a model without capabilities, so the whole listing
      fails. */
  lemma VisionFilters(m: Value, caps: seq<Value>)
    requires m.Obj?
    ensures m.fields == map["capabilities" := Arr(caps)] ==>
      VisionCapable("openai", m) == Some(Str("vision") in caps)
    ensures "capabilities" !in m.fields ==> VisionCapable("openai", m) == Some(false)
    ensures "capabilities" !in m.fields ==> VisionCapable("deepseek", m).None? && VisionCapable("claude", m).None?
  {
  }

  lemma MissingCapabilitiesFail(provider: string, apiKey: string, data: Value, before: seq<Value>, after: seq<Value>)
    requires provider == "deepseek" || provider == "claude"
    requires apiKey != []
    requires data == Obj(map["models" := Arr(before + [Obj(map["id" := Str("m")])] + after)])
    ensures GetAvailableModels(provider, apiKey, Ok(data)).1 == Failure("Failed to fetch available models from " + provider + " API")
  {
    var list := before + [Obj(map["id" := Str("m")])] + after;
    assert list[|before|] == Obj(map["id" := Str("m")]);
    assert Keep(provider)(list[|before|]).None?;
  }
}
