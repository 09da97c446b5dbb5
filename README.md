# Resume optimizer: a verified model of its decision layer

This project models the part of the resume optimizer web application that
can be stated without a browser or a network. The application converts an
uploaded resume to text with an LLM provider, keeps a list of configured
providers, and lets the user pick or upload a LaTeX template. The model
covers:

- the conversion façade `convertDocument`. It checks the extension and the
  stored providers, adapts the progress events, and classifies what the
  extraction throws (`lib/api/documentConverter.ts`);
- the Mistral OCR client `extractTextWithMistral`. It makes three ordered
  calls (upload, signed URL, chat completion) and emits progress events in
  a fixed order. The file also holds the model lookup with its fallback
  and the model listing (`lib/api/mistral.ts`);
- the multi-provider client. This covers four request builders with their
  base64 validation, the model lookup, the per-provider answer paths, the
  error wrapping and the capability filters of the model listing
  (`lib/api/llm-service.ts`);
- the provider registry of the settings page. Its invariant is "at most
  one provider is active" (`app/settings/page.tsx`);
- the template list and the generation handler of the templates page
  (`app/templates/page.tsx`);
- the text-to-Markdown rewrite `convertResumeTextToMarkdown`
  (`lib/utils.ts`);
- four small components and handlers: the file uploader's extension test
  and drag state, the `POST` handler of the convert route, the
  custom-template form with its simulated progress, and the PDF viewer's
  zoom and rotation.

Every HTTP call is an input value (`Transport.Reply`): a 2xx body, or an
axios error with or without a response. Browser storage is an input too:
the parsed provider list, an `Option<seq<Provider>>`. What a client does is
recorded as a trace of events (`Mistral.Event`), meaning requests sent and
progress callbacks made. The properties are then stated on that trace.
`Date.now()` and `URL.createObjectURL` are parameters. Timers are driven by
the caller: `Tick` is one run of the interval's callback and `Complete` is
the run of the timeout.

Pure code is modelled as functions and lemmas. State that the source
updates in place is modelled as a class whose methods state the new state:
the settings page, the templates page, the file uploader, the upload form
and the PDF viewer. Where the source steps through a loop, the model has a
`method` proved against a function. There are two such places:
- the upload-progress events of `extractTextWithMistral`, in
  `Mistral.SendUpload` and `Mistral.ExtractTextWithMistral`;
- the escape loop of `convertResumeTextToMarkdown`, in
  `Markdown.ConvertResumeTextToMarkdown`.

Some behaviours of the code are easy to get wrong, and the model keeps
them as the code has them:
- A 429 answer arrives as a plain `Error` and is reported as unexpected,
  not as rate-limited (see Findings).
- `upload-complete` is reported before the upload's id is checked.
- `processing-complete` is reported only once the answer has been found in
  the reply, not when the reply arrives.
- The Mistral client's model lookup never fails. It falls back to
  "mistral-small-latest" in every case where the other client's lookup
  throws.
- The uploading values are passed through as axios reports them. Nothing
  makes them increasing.

The helper modules do the following:
- `Wrappers`: Option and Result.
- `Lists`: `find` and `filter`.
- `Text`: `split('.').pop()`, ASCII `toLowerCase`, `trim`, `join` and
  decimal rendering.
- `JsValue`: JavaScript values with optional chaining, truthiness and
  `includes`.
- `Transport`: axios outcomes and the caught-error detail.
- `Types`: the record shapes.
- `Chat`: request bodies.
- `Base64`: standard base64 as in section 4 of RFC 4648, the shape regular
  expression and a decoder.

## Model

| member | source | states |
|---|---|---|
| Lists.FindFirst | lib/api/documentConverter.ts:145 | `find`: the index of the first element satisfying the predicate, or none exactly when no element does |
| Lists.Filter | app/settings/page.tsx:150 | `filter`: keeps exactly the satisfying elements, each as often as in the input |
| Lists.FilterAppend | app/templates/page.tsx:87 | filtering keeps the order: it distributes over concatenation |
| Text.LastSegment | components/file-uploader.tsx:53 | `split('.').pop()`: the suffix after the last '.', or the whole string without '.' |
| Text.ToLower | lib/api/documentConverter.ts:133 | `toLowerCase` keeps the length and maps each character; no upper-case ASCII letter remains |
| Text.Extension | lib/api/documentConverter.ts:133 | the derived extension has no '.' and no upper-case letter |
| Text.Trim | lib/utils.ts:24 | `trim`: the infix left after removing all leading and trailing white space; it neither starts nor ends with white space |
| Text.Join | components/file-uploader.tsx:59 | `join`: empty for no pieces, the piece itself for one |
| Text.JoinSnoc | components/file-uploader.tsx:59 | joining one more piece gives the earlier join, the separator and the piece |
| Text.JoinOffset | components/file-uploader.tsx:59 | every piece occurs in the join, at an offset inside it |
| Text.NatToString | components/upload-template.tsx:67 | the decimal rendering of `Date.now()` is a non-empty string of digits |
| Text.NatToStringInjective | components/upload-template.tsx:67 | different numbers render differently |
| JsValue.Get | lib/api/mistral.ts:111 | optional property access: undefined on a non-object, the field on an object that has it |
| JsValue.At | lib/api/mistral.ts:171 | optional index access: the element in range, undefined past the end |
| JsValue.TextOf | lib/api/mistral.ts:111 | a truthiness test on a string field lets through exactly the non-empty strings |
| JsValue.TextOr | lib/api/documentConverter.ts:202 | `a \|\| b`: the first operand when it is a non-empty string, else the fallback |
| JsValue.Includes | lib/api/llm-service.ts:137 | `includes` on an array is membership, on a string a substring test, and throws on anything else |
| JsValue.SelectIds | lib/api/mistral.ts:31-33 | `filter(...).map(m => m.id)`: throws exactly when the filter throws on some element; every id comes from a kept element |
| JsValue.SelectIdsAppend | lib/api/mistral.ts:31-33 | the ids come out in response order: selection distributes over concatenation |
| JsValue.Ids | lib/api/mistral.ts:33 | `map(m => m.id)`: one id per element, at the same place |
| JsValue.SelectIdsFilterMap | lib/api/mistral.ts:31-33 | when nothing throws, the selection equals the `filter` by a truthy verdict followed by the `map` to ids, so every kept element's id is listed, in order, and no other |
| JsValue.SelectIdsComplete | lib/api/mistral.ts:31-33 | the id of every kept element is in the result, and there are as many ids as kept elements |
| JsValue.SelectIdsSingle | lib/api/mistral.ts:31-33 | one element throws, is dropped, or contributes its id; with SelectIdsAppend this fixes the selection of any list |
| Transport.ResponseData | lib/api/mistral.ts:181 | an error the client raised itself has no response data |
| Transport.CaughtDetail | lib/api/mistral.ts:181 | the detail reported by a failure: `data.message`, else `data.detail[0].msg`, else the error's own message |
| Base64.Char64 | lib/api/llm-service.ts:217 | every 6-bit value maps to a character of `[A-Za-z0-9+/]` |
| Base64.Value64 | lib/api/llm-service.ts:217 | the value of an alphabet character is the inverse of `Char64` |
| Base64.ValueOfChar | lib/api/llm-service.ts:217 | `Value64(Char64(v)) == v` |
| Base64.Sextets | lib/api/llm-service.ts:217 | the four 6-bit values of three bytes recombine to those three bytes |
| Base64.Group | lib/api/llm-service.ts:217 | three bytes become four alphabet characters |
| Base64.Encode | lib/api/llm-service.ts:217 | `Buffer.from(b).toString('base64')`: length 4⌈n/3⌉, alphabet characters followed by exactly the padding '=' |
| Base64.TestShape | lib/api/llm-service.ts:224 | the greedy regular-expression test `^[A-Za-z0-9+/]*={0,2}$` accepts exactly the strings of alphabet characters followed by at most two '=' |
| Base64.AlphabetPrefix | lib/api/llm-service.ts:224 | the greedy `[A-Za-z0-9+/]*` stops at the first other character |
| Base64.EncodedPassesChecks | lib/api/llm-service.ts:217-226 | the encoding is empty exactly for an empty buffer and always passes the shape test, so neither check after the conversion can fail for a non-empty buffer |
| Base64.DecodeEncode | lib/api/llm-service.ts:217 | decoding the encoding gives back the bytes: the payload carries the file unaltered |
| Base64.DecodeEncodeStep | lib/api/llm-service.ts:217 | the round trip extends by one group of three bytes |
| Base64.DecodeEncodeShort | lib/api/llm-service.ts:217 | the round trip of one, two or three bytes, padding included |
| Base64.DecodeOne | lib/api/llm-service.ts:217 | a final byte encoded with "==" decodes back to it |
| Base64.DecodeTwo | lib/api/llm-service.ts:217 | two final bytes encoded with "=" decode back to them |
| Mistral.SelectedModel | lib/api/mistral.ts:42-67 | `getSelectedModel`: the first model of the stored, active 'mistral' entry when it is non-empty; "mistral-small-latest" in every other case; never empty and never a failure |
| Mistral.ExtractErrorMessage | lib/api/mistral.ts:78-182 | the two messages `extractTextWithMistral` throws: the key message, and the Mistral prefix before the caught detail |
| Mistral.OcrBody | lib/api/mistral.ts:141-162 | the chat request body: the model, one user message of the instruction and the signed URL, temperature 0.1 and 4000 tokens |
| Mistral.UploadRequest | lib/api/mistral.ts:95-108 | the upload: POST `/files` with the PDF content, purpose "ocr" and the key |
| Mistral.SignedUrlRequest | lib/api/mistral.ts:120-130 | the signed-URL request: GET `/files/<id>/url` with expiry 1 and the key |
| Mistral.ChatPhase | lib/api/mistral.ts:138-177 | the chat step as a value; its properties are in `ChatPhaseFacts` |
| Mistral.SignedUrlPhase | lib/api/mistral.ts:116-137 | the signed-URL step as a value; its properties are in `SignedUrlPhaseFacts` |
| Mistral.UploadedPhase | lib/api/mistral.ts:108-116 | the steps after the upload as a value; its properties are in `UploadedPhaseFacts` |
| Mistral.MistralRun | lib/api/mistral.ts:73-184 | `extractTextWithMistral` as a value: its trace and result; its properties are in `MistralSuccess` and `MistralFailures`, and `ExtractTextWithMistral` is proved equal to it |
| Mistral.ChatCapable | lib/api/mistral.ts:32 | `model.capabilities?.completion_chat`: throws exactly on a nullish model, otherwise the truthiness of the flag |
| Mistral.GetMistralModels | lib/api/mistral.ts:15-40 | requests `/models` with the key; succeeds exactly when the reply holds a `data` array that the filter does not throw on, with the ids of exactly the chat-capable models, in order (the `filter` then `map` of SelectIdsFilterMap); every failure is the one fixed message |
| Mistral.UploadPercent | lib/api/mistral.ts:103-106 | every uploading value lies between 0 and 99 |
| Mistral.Uploading | lib/api/mistral.ts:103-106 | one uploading event per axios progress event, in order, carrying its percentage; none without a callback |
| Mistral.UploadingSnoc | lib/api/mistral.ts:103-106 | one more axios progress event adds one more uploading event |
| Mistral.SendUpload | lib/api/mistral.ts:93-108 | the loop over the progress events emits upload-start(0), then the upload request, then the uploading events |
| Mistral.RequestChat | lib/api/mistral.ts:138-177 | the chat call produces the trace and result of the chat step |
| Mistral.RequestSignedUrl | lib/api/mistral.ts:120-137 | the signed-URL call produces the trace and result of the signed-URL step |
| Mistral.ExtractTextWithMistral | lib/api/mistral.ts:73-184 | the step-by-step client produces exactly the trace and result of `MistralRun` |
| Mistral.Requests | lib/api/mistral.ts:95-169 | an observation function of the model, not of the source: the requests of a trace, in order |
| Mistral.Progresses | lib/api/mistral.ts:93-176 | an observation function of the model, not of the source: the progress events of a trace, in order |
| Mistral.MistralSuccess | lib/api/mistral.ts:93-177 | a run succeeds exactly when the key is non-empty and the three calls give an id, a URL and an answer. It then sends exactly the upload, the signed-URL request and the chat request for the selected model and the signed URL. It reports upload-start(0), the uploading events, upload-complete(100), processing-start(0) and processing-complete(100), and returns the answer unchanged; the whole trace is upload-start, the upload, the uploading events, upload-complete, the signed-URL request, processing-start, the chat request and processing-complete, in that order |
| Mistral.MistralUploadRejected | lib/api/mistral.ts:95-108 | a rejected upload: only the upload request went out, there is no upload-complete, and the axios error is wrapped |
| Mistral.MistralNoFileId | lib/api/mistral.ts:109-114 | an upload answer without an id: upload-complete was reported, there is no signed-URL or chat request and no processing-start |
| Mistral.MistralSignedUrlFails | lib/api/mistral.ts:120-134 | a failed or URL-less signed-URL call: no chat request and no processing-start |
| Mistral.MistralChatFails | lib/api/mistral.ts:138-174 | a failed chat call or an answerless reply: the upload, the signed-URL request for the returned id and the chat request to the chat endpoint with the OCR body, then processing-start, but no processing-complete |
| Mistral.MistralFailures | lib/api/mistral.ts:78-183 | every failure point: an empty key fails unprefixed with no event; each later failure ends the run with the requests and events listed above and the wrapped error |
| Mistral.ChatPhaseFacts | lib/api/mistral.ts:138-177 | the chat step appends processing-start, then the request for the model and URL, then processing-complete exactly when the answer is found |
| Mistral.SignedUrlPhaseFacts | lib/api/mistral.ts:120-137 | the signed-URL step sends its request with expiry 1 and continues only with a URL |
| Mistral.UploadedPhaseFacts | lib/api/mistral.ts:109-116 | after the upload: a rejection ends the run, a missing id ends it after upload-complete |
| DocumentConverter.MimeType | lib/api/documentConverter.ts:19-24 | a MIME type exists exactly for the four allowed extensions |
| DocumentConverter.ErrorMessage | lib/api/documentConverter.ts:64-90 | every `ConversionError` message is "Document conversion failed: " followed by the detail; the unsupported-type message names the type |
| DocumentConverter.Classify | lib/api/documentConverter.ts:192-226 | the catch: no response gives `ConnectionError`; a response is classified by status; converter errors are rethrown unchanged; anything else is unexpected |
| DocumentConverter.StatusMessages | lib/api/documentConverter.ts:199-215 | 400, 401, 413, 415, 429 and 500 get their fixed messages (400 preferring `data.error`); any other status gives "Error: " and `data.error`, else the axios message |
| DocumentConverter.StatusDetail | lib/api/documentConverter.ts:199-215 | the status `switch` as a value; its cases are stated by `StatusMessages` |
| DocumentConverter.ProgressAdapter | lib/api/documentConverter.ts:108-130 | total is 100 and loaded equals progress; the start stages give 0, the complete stages give 100, and any other stage passes its value through |
| DocumentConverter.Forwarded | lib/api/documentConverter.ts:108-130 | one adapted event per progress event of the extraction when a callback is given; none otherwise |
| DocumentConverter.ActiveProvider | lib/api/documentConverter.ts:145 | the first active entry, even when later entries are active too; none exactly when no entry is active |
| DocumentConverter.Configured | lib/api/documentConverter.ts:138-153 | the checks pass exactly when a list is stored whose first active entry has a key and at least one model; that entry's key is used |
| DocumentConverter.ConfiguredFailures | lib/api/documentConverter.ts:139-153 | no stored list gives the not-configured message; no active entry or an empty key gives the no-active message; an empty model list gives the no-model message |
| DocumentConverter.FromRun | lib/api/documentConverter.ts:173-226 | what the façade makes of a run: forwarded events only with a callback, and every extraction failure reported as unexpected |
| DocumentConverter.ConvertDocument | lib/api/documentConverter.ts:99-227 | a disallowed extension, then a failed configuration check, fails before any request or progress event; forwarded events have total 100 and loaded equal to progress; `ConnectionError` is never thrown |
| DocumentConverter.ConversionSuccess | lib/api/documentConverter.ts:181-190 | success exactly for an allowed extension, a passing configuration and three successful calls; the text is the answer unchanged, sections are empty, and the metadata holds the file name, the extension, the elapsed time and the text length; the upload used the first active key |
| DocumentConverter.ExtractionFailuresAreUnexpected | lib/api/documentConverter.ts:192-226 | as written, every extraction failure ends in the unexpected branch |
| DocumentConverter.RateLimitReportedAsUnexpected | lib/api/documentConverter.ts:192-226 | a 429 on the chat call is reported as unexpected, although the status switch would classify it as rate-limited |
| DocumentConverter.RateLimitStatus | lib/api/documentConverter.ts:209-210 | an answered 429 is classified with the rate-limit message |
| DocumentConverter.ClassifyExtraction | lib/api/documentConverter.ts:194-225 | the intended catch: an extraction that failed on an axios error is classified by that error; anything else stays unexpected |
| DocumentConverter.IntendedClassification | lib/api/documentConverter.ts:192-226 | with the intended catch, a rejected upload, signed-URL or chat call is classified by its own status or as a connection failure; every other outcome is as written |
| DocumentConverter.IntendedFromRun | lib/api/documentConverter.ts:192-226 | the intended façade differs from the written one only in the error of an extraction that failed on an axios error |
| DocumentConverter.ConvertDocumentIntended | lib/api/documentConverter.ts:99-227 | the corrected façade; `IntendedClassification` states what it reports |
| LlmService.Endpoint | lib/api/llm-service.ts:4-9 | an endpoint exists exactly for the four known providers |
| LlmService.EndpointText | lib/api/llm-service.ts:259 | the template literal of `API_ENDPOINTS[provider]`: "undefined" for an unknown provider |
| LlmService.FormatRequest | lib/api/llm-service.ts:32-112 | only the mistral builder fails: on an empty payload, on a payload that fails the shape test, or on no payload with no messages, each with its message. Every body carries the model, temperature 0.1 and 4000 tokens. A payload replaces the messages with one message, and no payload passes them through |
| LlmService.PayloadCarried | lib/api/llm-service.ts:47-111 | every builder given an accepted payload sends one user message of a text block and a block that holds the payload unaltered |
| LlmService.PayloadMessage | lib/api/llm-service.ts:47-111 | the one user message each builder makes; `PayloadCarried` states that it holds the payload |
| LlmService.DefaultModelFor | lib/api/llm-service.ts:175-180 | a non-empty default exists exactly for the four known providers |
| LlmService.AnswerPath | lib/api/llm-service.ts:271-284 | where each provider's answer sits: `choices[0].message.content` for mistral and openai, `output.content` for deepseek, `content[0].text` for claude |
| LlmService.LlmSelectedModel | lib/api/llm-service.ts:156-187 | fails when nothing is stored, when the id is absent or when the entry is inactive, each with its message; otherwise the first model, else the default |
| LlmService.SelectedModelsAgree | lib/api/llm-service.ts:156-187 | for "mistral" the two lookups agree where this one succeeds, and the Mistral client falls back to its default where it fails |
| LlmService.Wrap | lib/api/llm-service.ts:293-297 | every failure inside the try carries "Failed to extract text using <provider> API: " |
| LlmService.Fail | lib/api/llm-service.ts:293-297 | a failure before the request sends nothing and carries the prefix |
| LlmService.AfterEncoding | lib/api/llm-service.ts:245-291 | after encoding: success exactly for a known, configured provider, a valid mistral payload and an answer on the provider's path; at most one request, none for an unknown provider |
| LlmService.EncodeAndSend | lib/api/llm-service.ts:208-243 | the conversion of a non-empty buffer and its two checks: failures carry the prefix, at most one request |
| LlmService.ExtractTextWithLlm | lib/api/llm-service.ts:189-298 | an empty key fails unwrapped; every later failure carries the prefix; at most one request |
| LlmService.EncodingChecksPass | lib/api/llm-service.ts:217-226 | for a non-empty buffer the checks on the encoding never fire |
| LlmService.LlmOutcome | lib/api/llm-service.ts:189-298 | success exactly for a non-empty buffer, a known and configured provider and an answer on the provider's path; an unknown provider sends nothing |
| LlmService.LlmSuccess | lib/api/llm-service.ts:245-291 | a success returns the answer unchanged and sends one request to the provider's chat endpoint with the key and the selected model; its payload decodes back to the buffer |
| LlmService.VisionCapable | lib/api/llm-service.ts:133-146 | the capability filters throw on a nullish model |
| LlmService.VisionFilters | lib/api/llm-service.ts:135-146 | openai keeps a model whose capabilities name "vision" and drops one without capabilities; deepseek and claude throw on it |
| LlmService.GetAvailableModels | lib/api/llm-service.ts:114-154 | an empty key fails unwrapped and requests nothing; otherwise one request to `<endpoint>/models`, the ids of exactly the vision-capable models in response order (the `filter` then `map` of SelectIdsFilterMap), and one fixed message for every failure, an unknown provider included |
| LlmService.MissingCapabilitiesFail | lib/api/llm-service.ts:139-152 | one deepseek or claude model without capabilities makes the whole listing fail |
| Settings.ActiveCount | app/settings/page.tsx:108-162 | the number of active entries is 0 exactly when none is active |
| Settings.DefaultsWellFormed | app/settings/page.tsx:24-57 | the default list has unique ids and exactly one active entry, openai |
| Settings.DefaultProviders | app/settings/page.tsx:24-57 | the default list; `DefaultsWellFormed` states its properties |
| Settings.Merge | app/settings/page.tsx:114 | `{ ...provider, ...updates }` keeps the id, takes a given `isActive`, and is the identity for an empty update |
| Settings.UpdateOne | app/settings/page.tsx:111-134 | the `map` callback of `handleUpdateProvider`; `UpdatedProviders` states what it does |
| Settings.UpdatedProviders | app/settings/page.tsx:108-137 | the same length, order and ids; entries with the id get the updates merged; on activation every other entry is switched off, otherwise every other entry is unchanged |
| Settings.ActivationCount | app/settings/page.tsx:111-124 | after activation, the number of active entries is the number of entries with the id |
| Settings.OtherUpdateCount | app/settings/page.tsx:126-134 | any other update never adds an active entry |
| Settings.UpdateKeepsAtMostOne | app/settings/page.tsx:108-137 | every update keeps at most one active entry when the id occurs at most once |
| Settings.ActivationSelectsOne | app/settings/page.tsx:111-124 | activating an id that occurs once leaves exactly one active entry |
| Settings.RepeatedIdActivatesBoth | app/settings/page.tsx:111-124 | with a repeated id, activation switches on every copy |
| Settings.SwitchOffLeavesNone | app/settings/page.tsx:126-134 | switching off the active default leaves no provider active |
| Settings.FilterActiveCount | app/settings/page.tsx:150 | removing entries never adds an active entry |
| Settings.NewCustomProvider | app/settings/page.tsx:198-206 | the "Add Custom" entry is inactive, has the one model "default-model" and no key |
| Settings.SettingsPage.constructor | app/settings/page.tsx:60-61 | the page starts with the default providers, the openai tab and at most one active entry |
| Settings.SettingsPage.UpdateProvider | app/settings/page.tsx:108-137 | `handleUpdateProvider` stores the updated list and keeps the tab; the updates keep at most one active entry when the id occurs at most once |
| Settings.SettingsPage.AddCustomProvider | app/settings/page.tsx:139-147 | appends the entry, selects its tab, and keeps at most one active entry for an inactive entry |
| Settings.SettingsPage.RemoveProvider | app/settings/page.tsx:149-158 | removes every entry with the id, keeps the rest in order, selects the first remaining tab or "", never adds an active entry |
| Settings.SettingsPage.ModelSelectChange | app/settings/page.tsx:160-162 | the selection becomes the entry's only model, so the displayed first model is the selection; no active entry is added |
| Templates.DefaultIdsDistinct | app/templates/page.tsx:15-37 | the default templates have distinct ids |
| Templates.DefaultTemplates | app/templates/page.tsx:15-37 | the default templates; `DefaultIdsDistinct` states their ids are distinct |
| Templates.FindTemplate | app/templates/page.tsx:110 | `find` by id: a found template has the id and is in the list; none exactly when no template has it |
| Templates.FindInConcat | app/templates/page.tsx:110 | lookup in defaults followed by customs tries the defaults first, so a default shadows a custom template with the same id |
| Templates.FirstOrRest | app/templates/page.tsx:110 | lookup is the head when it matches, else lookup in the tail |
| Templates.RemovedId | app/templates/page.tsx:87 | after the filter no template has the removed id |
| Templates.TemplatesPage.constructor | app/templates/page.tsx:40-45 | the page starts with the defaults, no selection, no customs and the default tab |
| Templates.TemplatesPage.TemplateSelect | app/templates/page.tsx:71-73 | selects the id and changes nothing else |
| Templates.TemplatesPage.AddCustomTemplate | app/templates/page.tsx:75-84 | appends the template, stores the new list and switches to the custom tab |
| Templates.TemplatesPage.RemoveCustomTemplate | app/templates/page.tsx:86-94 | removes every custom template with the id, keeps the rest in order and stores the list; the defaults and the selection are untouched |
| Templates.TemplatesPage.GenerateLatex | app/templates/page.tsx:96-149 | an empty selection returns before any lookup or request and changes nothing; otherwise the first match in defaults then customs is requested, a missing one fails with no request, and `isGenerating` is false again on every way out; only an answered request whose body is not null stores the LaTeX and navigates to the preview; a null body fails, since reading its `latex_content` throws |
| Markdown.HeaderRun | lib/utils.ts:10 | the greedy `[A-Z\s]+` stops at the first other character |
| Markdown.MatchHeaderAt | lib/utils.ts:10 | the match of `^([A-Z][A-Z\s]+)$` at a position is the longest one, and none exactly when no match begins there |
| Markdown.NoHeaderFrom | lib/utils.ts:10 | text where no header match begins is left as it is |
| Markdown.WholeHeader | lib/utils.ts:10 | text that is one header match gets a single "## " |
| Markdown.HeaderSpansLines | lib/utils.ts:10 | since `\s` includes '\n', two consecutive capital lines form one match and only the first gets "## " |
| Markdown.HeaderPassFrom | lib/utils.ts:10 | the header replacement from a position on; `NoHeaderFrom`, `WholeHeader` and `HeaderSpansLines` state what it does |
| Markdown.HeaderPass | lib/utils.ts:10 | the header replacement over the whole text |
| Markdown.WhitespaceRun | lib/utils.ts:13 | the greedy `\s*` stops at the end of the text or at a character that is not white space; `WhitespaceRunSpan` states that everything it passes over is white space |
| Markdown.WhitespaceRunSpan | lib/utils.ts:13 | everything the greedy `\s*` passes over is white space |
| Markdown.NoBulletFrom | lib/utils.ts:13 | text without a bullet at a line start is left as it is |
| Markdown.BulletItem | lib/utils.ts:13 | a line starting with the bullet bytes and white space becomes "- " followed by the rest of the line |
| Markdown.BulletPassFrom | lib/utils.ts:13 | the bullet replacement from a position on; the lemmas below state what it does |
| Markdown.BulletPass | lib/utils.ts:13 | the bullet replacement over the whole text |
| Markdown.BulletShift | lib/utils.ts:13 | the pass from a position depends only on the text from there on and on whether that position begins a line |
| Markdown.BulletPrefix | lib/utils.ts:13 | before a text that starts without white space, a prefix ending in a line terminator is processed as a text of its own |
| Markdown.BulletLineAt | lib/utils.ts:13 | a bullet at a line start and the white space after it become "- ", with the text before and after processed on their own |
| Markdown.BulletLine | lib/utils.ts:13 | for a + bullet + w + rest, with a empty or ending in a line terminator, w any white space including newlines, and rest not starting with white space: the result is the pass over a, then "- ", then the pass over rest; a bullet at the start of rest is kept when it is not at a line start |
| Markdown.CollapseFrom | lib/utils.ts:16 | the collapse leaves no run of three '\n', is empty only at the end of the text, and starts with '\n' exactly when the text does |
| Markdown.CollapseKeepsText | lib/utils.ts:16 | the collapse keeps every character other than '\n', in order |
| Markdown.CollapseNewlines | lib/utils.ts:16 | the collapse over the whole text |
| Markdown.CollapseShift | lib/utils.ts:16 | the collapse from a position depends only on the text from there on |
| Markdown.CollapsePrefix | lib/utils.ts:16 | a prefix that does not end in '\n' is collapsed as a text of its own |
| Markdown.CollapseLineBreaksAt | lib/utils.ts:16 | a run of k newlines inside a text becomes min(k, 2) newlines, with the text on either side collapsed on its own |
| Markdown.CollapseLineBreaks | lib/utils.ts:16 | a + k newlines + b, with k >= 1 and no '\n' at the seams, collapses to the collapse of a, min(k, 2) newlines and the collapse of b |
| Markdown.NoNewlineFrom | lib/utils.ts:16 | text without '\n' is left as it is by the collapse |
| Markdown.SpecialDistinct | lib/utils.ts:19 | the fifteen special characters are distinct |
| Markdown.Escape | lib/utils.ts:20-22 | one pass that puts '\' before every listed character: every listed character other than '\' is preceded by '\' |
| Markdown.EscapeUntouched | lib/utils.ts:20-22 | text without listed characters is left as it is |
| Markdown.EscapeStep | lib/utils.ts:20-22 | escaping one more character after a pass equals one pass over the longer list, when '\' comes first |
| Markdown.EscapeLoopStep | lib/utils.ts:19-22 | each round of the `forEach` extends the single-pass escape by that round's character |
| Markdown.UnescapeEscape | lib/utils.ts:19-22 | since '\' itself is escaped, dropping the escapes gives back the text |
| Markdown.EscapeNoTriple | lib/utils.ts:16-22 | escaping adds no newline, so it keeps the text free of triple newlines |
| Markdown.TrimNoTriple | lib/utils.ts:24 | `trim` keeps the text free of triple newlines |
| Markdown.TrimEscaped | lib/utils.ts:24 | `trim` keeps every escape |
| Markdown.TrimUntouched | lib/utils.ts:24 | `trim` leaves text that neither starts nor ends with white space |
| Markdown.Markdown | lib/utils.ts:8-25 | `convertResumeTextToMarkdown` as a value; `MarkdownProperties` states its properties |
| Markdown.MarkdownProperties | lib/utils.ts:8-25 | the output has every listed character escaped, including the inserted markers, and no triple newline; the escape loses nothing |
| Markdown.ConvertResumeTextToMarkdown | lib/utils.ts:8-25 | the four passes, the loop over the fifteen characters and `trim` compute the composed function; the result is escaped, has no triple newline and no white space at either end |
| Markdown.MarkedHeader | lib/utils.ts:10-16 | a one-word capital line gets "## " and is left alone by the bullet pass, the collapse and the escape |
| Markdown.CapsUnescaped | lib/utils.ts:19-22 | capital letters are not escaped |
| Markdown.EscapeMarker | lib/utils.ts:19-22 | the inserted "## " is escaped to `\#\# ` |
| Markdown.HeaderMarkerEscaped | lib/utils.ts:10-24 | as written, a one-word capital line comes out as `\#\# ` and the word, which is not a Markdown heading |
| Markdown.EscapedHeadingTrimmed | lib/utils.ts:24 | `trim` leaves the escaped heading as it is |
| Markdown.RewrittenHeader | lib/utils.ts:10-16 | the passes before the escape turn a one-word capital line into "## " and the word |
| Markdown.EscapedHeader | lib/utils.ts:19-22 | the escape turns "## " and a capital word into `\#\# ` and the word |
| Markdown.ExperienceExample | lib/utils.ts:10-24 | the line "EXPERIENCE" becomes `\#\# EXPERIENCE` |
| Markdown.IntendedHeading | lib/utils.ts:10-24 | with the escape done first, a one-word capital line becomes the heading "## " and the word |
| Markdown.IntendedMarkdown | lib/utils.ts:8-25 | the corrected rewrite with the escape first; `IntendedHeading` and `IntendedRewrite` state what it does |
| Markdown.HeadingTrimmed | lib/utils.ts:24 | `trim` leaves the heading as it is |
| Markdown.IntendedRewrite | lib/utils.ts:10-16 | escaping first, then the three passes, marks a one-word capital line as a heading |
| FileUploader.DottedExtension | components/file-uploader.tsx:53 | the extension starts with '.' and has no other '.' and no upper-case letter |
| FileUploader.LastSegmentAfterDot | components/file-uploader.tsx:53 | the text after the last '.' is what `pop` returns |
| FileUploader.ExtensionOfDottedName | components/file-uploader.tsx:53 | a name ending in '.' and ext has the extension "." followed by ext lower-cased |
| FileUploader.ExtensionWithoutDot | components/file-uploader.tsx:53 | a name without '.' is its own extension, lower-cased |
| FileUploader.UnsupportedAlert | components/file-uploader.tsx:59 | the alert starts with the fixed text, is followed by the types joined with ", ", and contains every accepted type |
| FileUploader.ListedType | components/file-uploader.tsx:59 | each accepted type occurs in the alert text |
| FileUploader.DragActiveAfter | components/file-uploader.tsx:22-30 | dragleave clears the highlight; only enter, over and leave change it |
| FileUploader.DragUnchanged | components/file-uploader.tsx:22-30 | other event types leave the highlight alone |
| FileUploader.DragHistory | components/file-uploader.tsx:22-30 | after any sequence of events the highlight is on exactly when the last enter, over or leave event was not a leave |
| FileUploader.FileUploaderState.constructor | components/file-uploader.tsx:18-19 | no highlight, no selection, no calls |
| FileUploader.FileUploaderState.HandleDrag | components/file-uploader.tsx:22-30 | the highlight follows the event type; nothing else changes |
| FileUploader.FileUploaderState.HandleFile | components/file-uploader.tsx:52-61 | an accepted file becomes the selection and is passed on once; a rejected one raises one alert and changes nothing else |
| FileUploader.FileUploaderState.Select | components/file-uploader.tsx:56-57 | the selection and one `onFileSelect` call |
| FileUploader.FileUploaderState.Alert | components/file-uploader.tsx:59 | one alert call |
| FileUploader.FileUploaderState.HandleDrop | components/file-uploader.tsx:32-41 | the highlight goes off; only the first file is handled; an empty drop does nothing else |
| FileUploader.FileUploaderState.HandleChange | components/file-uploader.tsx:43-50 | the first chosen file is handled as in a drop, without touching the highlight |
| ConvertRoute.ProcessingFailure | app/api/convert/route.ts:70-82 | the outer catch gives 500 with "Failed to process file: " and the message, and the stack or the fixed text |
| ConvertRoute.Post | app/api/convert/route.ts:4-83 | 400 exactly for a missing file; 401 exactly for a file without a non-empty key header; no extraction request in either case or on a read failure; a 200 has empty sections and metadata |
| ConvertRoute.PostSuccess | app/api/convert/route.ts:37-55 | a 200 exactly when the extraction succeeds; it carries the answer, and the extraction sent the three requests with the header's key and the default model |
| ConvertRoute.PostExtractionFailure | app/api/convert/route.ts:56-68 | an extraction failure gives 500 with the extraction's wrapped message and the fixed details text |
| UploadTemplate.ProgressStep | components/upload-template.tsx:51-57 | at 95 or more the progress stays, below it grows by 5; multiples of 5 up to 95 stay so |
| UploadTemplate.ProgressAfter | components/upload-template.tsx:50-58 | the progress after k runs of the interval; `ProgressFromZero` states its values |
| UploadTemplate.ProgressFromZero | components/upload-template.tsx:50-58 | from 0, k steps give 5k until 95, then 95: always a multiple of 5 and never over 95 |
| UploadTemplate.NewTemplate | components/upload-template.tsx:66-72 | the template has a "custom-" id followed by digits, the entered name and description, the preview URL or the placeholder, and the custom path followed by the file name |
| UploadTemplate.DistinctTimesDistinctIds | components/upload-template.tsx:67 | templates completed at different times get different ids |
| UploadTemplate.UploadTemplateForm.constructor | components/upload-template.tsx:19-25 | the form starts empty, collapsed and not uploading |
| UploadTemplate.UploadTemplateForm.TemplateUpload | components/upload-template.tsx:28-30 | sets the template file and nothing else |
| UploadTemplate.UploadTemplateForm.PreviewUpload | components/upload-template.tsx:32-34 | sets the preview image and nothing else |
| UploadTemplate.UploadTemplateForm.HandleSubmit | components/upload-template.tsx:36-60 | an empty name, an empty description or no file gives the missing-information toast and starts nothing; otherwise the upload and the interval start, and the completion is scheduled with the form as it is |
| UploadTemplate.UploadTemplateForm.Tick | components/upload-template.tsx:50-58 | one run of the interval steps the progress, and stops the interval once it is at 95 or more |
| UploadTemplate.UploadTemplateForm.Complete | components/upload-template.tsx:61-89 | the timeout passes the new template to `onAddTemplate` once, stops the interval, resets and collapses the form and shows the success toast |
| UploadTemplate.UploadTemplateForm.ResetForm | components/upload-template.tsx:76-83 | empty fields, no files, not uploading, progress 0, collapsed |
| PdfViewer.ZoomedIn | components/pdf-viewer.tsx:15-17 | zoom-in never exceeds 2, adds 0.1 below that, and never lowers an in-range zoom |
| PdfViewer.ZoomedOut | components/pdf-viewer.tsx:19-21 | zoom-out never goes below 0.5, subtracts 0.1 above that, and never raises an in-range zoom |
| PdfViewer.Rotated | components/pdf-viewer.tsx:23-25 | the rotation stays below 360, and a quarter turn moves to a different quarter turn |
| PdfViewer.FourRotations | components/pdf-viewer.tsx:23-25 | a quarter turn stays a quarter turn, and four rotations return to the start |
| PdfViewer.ZoomStaysInRange | components/pdf-viewer.tsx:12-21 | both zoom buttons keep a zoom in [0.5, 2] within it |
| PdfViewer.View | components/pdf-viewer.tsx:67-71 | the placeholder is shown exactly for an empty URL, the frame otherwise |
| PdfViewer.PdfViewerState.constructor | components/pdf-viewer.tsx:12-13 | zoom 1 and rotation 0 |
| PdfViewer.PdfViewerState.ZoomIn | components/pdf-viewer.tsx:15-17 | zooms in and leaves the rotation; the zoom stays in range |
| PdfViewer.PdfViewerState.ZoomOut | components/pdf-viewer.tsx:19-21 | zooms out and leaves the rotation; the zoom stays in range |
| PdfViewer.PdfViewerState.Rotate | components/pdf-viewer.tsx:23-25 | rotates by a quarter turn and leaves the zoom; the rotation stays a quarter turn |

## Left out

- HTTP is not executed. Each axios or fetch call is an input outcome. The model does not cover multipart encoding, request headers beyond the key, the meaning of the signed URL's expiry, or server behaviour.
- Browser storage and `JSON.parse` are not modelled. The parsed provider list is an input, and a stored value that does not parse is not modelled.
- `convertDocument` and the Mistral client's model lookup receive the same stored list. Both read storage at different moments, and a change in between is not modelled.
- `Date.now()` and `URL.createObjectURL` are parameters. The conversion time is the caller's `elapsed`.
- Timers are run by the caller (`Tick`, `Complete`). Their 100 ms and 2 s delays are not modelled.
- UploadTemplate.UploadTemplateForm.Tick: the model has one `intervalActive` flag for all running intervals. With overlapping submissions the source has one interval per submission, each cleared by its own timeout.
- UploadTemplate.UploadTemplateForm.Complete: the model renders progress 0, not 100. The source sets 100 and then 0 in the same callback, and React batches the two updates.
- The asynchronous `updateMistralModels` fetch, which `handleUpdateProvider` starts for a new Mistral key, runs after the handler. Its toasts and the loading flag are not modelled.
- `handleSaveSettings` is not modelled, nor the demo generation of the templates page. They only write storage and navigate.
- The toasts of the settings and templates pages are not recorded. The upload form's toasts are recorded.
- The `useEffect` loading from storage on the settings and templates pages is not modelled.
- Rendering, styling and the `transform` style of the viewer are not modelled. Neither are the expand and cancel buttons of the template form, the "click to browse" button of the uploader, and the `isUploading` and `progress` props, which only affect rendering.
- `cn` in lib/utils.ts wraps foreign libraries and is not modelled.
- `console` logging has no effect on control flow and is left out.
- Mistral.UploadPercent: a progress event with total 0 and nothing loaded gives 0. JavaScript gives NaN there, and the model has no NaN. A total of 0 with bytes loaded gives 99, as `Math.min(Infinity, 99)` does.
- PdfViewer.ZoomedIn: the zoom is a real number, so IEEE rounding of the 0.1 steps is not modelled. Only the bounds are claimed, and they hold for doubles as well.
- JsValue.TextOf: a truthy value that is not a string is treated as absent. This covers an `id`, `url`, answer, `data.message` or `detail[0].msg` (Transport.CaughtDetail) that is a number, an object or `true`, where the TypeScript types say string. It also covers the `data.error` that DocumentConverter.StatusDetail reads through TextOr: a truthy `error` that is not a string falls back to the default message, where JavaScript would use that value.
- JsValue.Includes: `includes` is modelled on arrays and strings only. A value with its own `includes` method is not modelled.
- Text.ToLower: only ASCII letters are lower-cased. Full Unicode case mapping is not modelled.
- DocumentConverter.ConversionSuccess: `text_length` counts characters, where JavaScript counts UTF-16 code units.
- DocumentConverter.ConvertDocument: a failing `file.arrayBuffer()` is not an input. It would end in the unexpected branch, like every extraction failure.
- ConvertRoute.Post: a form field that holds a string rather than a file is not modelled.
- The `instanceof ArrayBuffer` check of `extractTextWithLLM` cannot fail in the model, because the content is always a byte sequence.
- `Buffer.from(...).toString('base64')` is not modelled as code. It is specified by section 4 of RFC 4648 (`Base64.Encode`).
- LlmService.EndpointText: an unknown provider's URL renders as "undefined". The request goes to "undefined/models", and the model records it as such.
- Settings.SettingsPage.AddCustomProvider: "at most one active" is kept only for an inactive new entry. The only caller, the "Add Custom" button, passes one.
- The pages app/upload, app/optimize, app/compare and app/preview are not modelled. They are fetch, storage and navigation glue.
- The UI widgets under components/ui and the compare, viewer and template-card components are not modelled. They render only.
- The types.ts file supplies only record shapes (`Types`).

## Findings

| source | as written | input that shows it | evidently intended | confidence | as-written member | corrected member |
|---|---|---|---|---|---|---|
| lib/api/documentConverter.ts:192-226 | the extraction rethrows every failure as a plain `Error`, so the axios test of the catch never applies and every failure of the three calls is "An unexpected error occurred during conversion" | a signed-URL answer followed by a chat reply rejected with status 429 | the status switch classifies the failed call: a 429 gives "Rate limit exceeded. Please try again later" | not executed | DocumentConverter.RateLimitReportedAsUnexpected | DocumentConverter.IntendedClassification |
| lib/utils.ts:10-22 | the escape loop runs after the markers are inserted, so the "## " of a header line and the "- " of a bullet are escaped and stop being Markdown syntax | the text "EXPERIENCE", which becomes `\#\# EXPERIENCE` | the escape applies to the text only, and the header becomes "## EXPERIENCE" | not executed | Markdown.HeaderMarkerEscaped | Markdown.IntendedHeading |
