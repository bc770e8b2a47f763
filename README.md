# LLM gateway core, modelled in Dafny

The system is an HTTP gateway in front of several LLM providers. Clients speak the
OpenAI (chat completions, responses, embeddings, model listing) and Anthropic
(messages) protocols. The gateway:

- checks the gateway API key and its model whitelist;
- bans client IPs after repeated login failures;
- answers repeated requests from a response cache;
- resolves the requested model name to a provider, endpoint, provider model and
  provider key;
- rewrites the request body for the upstream;
- extracts token usage from the upstream reply for the request log.

A web front end shows the logged traffic. It decodes captured bodies and recovers
the assistant's reply from them.

This project models the decision and transformation rules of that core and proves
what they promise. One module per source file:

| module | file | what it models |
|---|---|---|
| `FrontendUtils` | `frontend_utils.dfy` | `decodeBody`, the HTML-escape fallback of `getHighlightedHtml`, `extractAiContent` (with its accumulating loop as a method) |
| `FrontendFrames` | `frontend_utils.dfy` | that re-rendering an event-stream line keeps its frame's data |
| `OpenAiUsage` | `openai_usage.dfy` | `extract_usage` in both copies (one flag tells them apart), `elapsed_ms`, `build_log_context` |
| `RequestRewrite` | `request_rewrite.dfy` | `extract_model_from_payload`, `prepare_request_bodies` (an in-place map update loop), the front of `process_request`, the payload handling of the older `process_request` |
| `Routing` | `routing.dfy` | `parse_provider_real_model`, `enforce_model_whitelist`, `resolve_route` over query results |
| `AuthMiddleware` | `auth_middleware.dfy` | `extract_model_for_whitelist_check`, the decision sequence of `auth_middleware` |
| `AuthService` | `auth_service.dfy` | `LoginProtection` as a class with `is_banned` and `record_failure`; `extract_api_key` |
| `ResponseCache` | `response_cache.dfy` | `api_type_from_path`, the cached-status fallback, `CacheLayer`, the in-memory cache as a class, the lookup flow |
| `BodyHash` | `body_hash.dfy` | lower-case hex of a 16-byte digest (a push loop and its specification), canonical-versus-raw hash input, `ResponseCacheKey` |
| `DbTypes` | `db_types.dfy` | `ApiType` and `LbStrategy` with their `Display`/`FromStr` |
| `Stats` | `stats.dfy` | the bucket width of `get_requests_over_time` |
| `Http`, `Text`, `Json`, `AppErrors`, `Wrappers` | | header values, string helpers (JavaScript and Rust trimming, split/join, `str::lines`), the JSON value type, `AppError`, Option/Result |

## How foreign code is modelled

Code the core calls but does not contain is passed in as functions and never
looked inside:

- **JSON library.** `JSON.parse`/`JSON.stringify` and `serde_json`'s parse and
  serialise functions are the `Json.Codec` record. It has a partial parse of text,
  a partial parse of bytes, a pretty printer and a compact printer. A JSON value is
  the `Json.Json` datatype. Objects are maps, so member order is not modelled.
  Integers are exact. A float is kept as its text. Where a lemma needs a law
  relating parse and print, it takes that law as a `requires`.
- **Text decoding.** `TextDecoder.decode` becomes a function returning
  `Option<string>`. `String::from_utf8_lossy` becomes a total function.
- **Hashing.** MD5 becomes the function type `BodyHash.Md5`, which returns 16 bytes.
- **Database.** Each query is a function returning `Result`. They are grouped in
  `Routing.RoutingDb` and `AuthMiddleware.AuthDb`; the database lookup of the
  response cache is a single function. In `Routing` a query's error is the
  `AppError` that the source's `?` passes on. The auth middleware wraps every
  failing query in `AppError::Internal`, so the arrows of `AuthDb` yield the
  error's text and `AuthDecision` wraps it.
- **Prism.** Highlighting is a function that returns None where Prism throws.
- **Clocks.** The current instant is a parameter, in nanoseconds since an arbitrary
  origin. Elapsed milliseconds are a parameter too.
- **Headers.** A header map is a map from lower-case name to the bytes of the
  value. `HeaderValue::to_str` succeeds exactly on visible ASCII and tab.

## Where the source disagrees with itself

The model follows the code. The snapshot is not one consistent revision:

- `ApiType` has two more variants than `backend/src/db/types.rs` declares. That file
  declares three, but the services and middleware also match on `OpenAiModels` and
  `OpenAiEmbeddings`. `DbTypes.ApiType` has all five. `Display` is defined on the
  three declared ones (`ApiType.Declared`), and `FromStr` accepts exactly their
  three strings.
- The two copies of `extract_usage` differ on embeddings. The older copy in
  `backend/src/services/openai.rs` has no embeddings arm, so
  `OpenAiUsage.ExtractUsage` with `embeddingsIsOpenAi == false` treats embeddings
  like the models listing: no usage is ever read.
- `resolve_route` has two signatures. `backend/src/services/openai/responses.rs`
  calls it as `resolve_route(pool, model, api_type)` and reads
  `route.extra_fields`. `backend/src/services/routing.rs` takes a gateway key id
  and its `Route` has no `extra_fields`. `Routing` follows routing.rs.
  `RequestRewrite.ProcessRequestFront` takes the route lookup as a function
  returning the provider model id and the extra fields.
- `AppError::Forbidden` carries no message in `backend/src/error.rs`, but every
  caller passes one. `AppErrors.AppError.Forbidden` carries it.
- Two hashes of the request body exist:
  - the cache middleware keys its in-memory cache by the MD5 of the raw bytes
    (`ResponseCacheKey::new`);
  - `backend/src/utils/request_body_hash.rs` hashes a canonical re-serialisation of
    JSON bodies.

  Both are modelled, in `BodyHash.NewCacheKey` and `BodyHash.HashRequestBody`.

## Model

| member | source | states |
|---|---|---|
| FrontendUtils.NatToString | frontend/src/lib/utils.ts:41 | the byte count in `[Binary Data: N bytes]` is the decimal numeral of the count: digits whose value (`DecimalValue`) is the count, with no leading zero |
| FrontendUtils.DataFramePayload | frontend/src/lib/utils.ts:23-32 | definition (no ensures): the JSON payload of a line that trims to `data:` plus text other than `[DONE]` that parses; its uses are stated by `RewriteLine` and `RewriteLineKeepsFrame` |
| FrontendUtils.RewriteLine | frontend/src/lib/utils.ts:22-35 | a JSON `data:` frame becomes `data: ` plus the pretty print of its payload; any other line (not `data:` after trimming, `[DONE]`, or an unparseable payload) is returned unchanged |
| FrontendFrames.RewriteLineKeepsFrame | frontend/src/lib/utils.ts:22-35 | when the pretty print parses back, has no space at either end and `[DONE]` is not JSON, the rewritten line carries exactly the frame payload the original line carried (or none, when it carried none) |
| FrontendUtils.DecodeText | frontend/src/lib/utils.ts:15-38 | definition (no ensures) of the decoding of readable text; stated by `DecodeJsonDocument`, `DecodeEventStream` and `DecodeUnchangedText` |
| FrontendUtils.DecodeBody | frontend/src/lib/utils.ts:11-43 | definition (no ensures) of `decodeBody`: "Empty" without a body, `[Binary Data: N bytes]` (with `NatToString`) when decoding fails, `DecodeText` otherwise; stated by `DecodeBodyOfNothing` |
| FrontendUtils.DecodeBodyOfNothing | frontend/src/lib/utils.ts:11-38 | a missing body is "Empty"; a present empty body decodes to the empty text and is rendered as "", not "Empty" |
| FrontendUtils.DecodeJsonDocument | frontend/src/lib/utils.ts:15-17 | a whole JSON document renders as its pretty print with no line processing; rendering that again is a no-op when the printer's output parses back |
| FrontendUtils.DecodeEventStream | frontend/src/lib/utils.ts:20-36 | the event-stream rewrite keeps the number and order of the lines: the output is the `\n`-join, line for line, of `data: ` plus the pretty print for each JSON `data:` frame and of the line itself for every other line |
| FrontendUtils.DecodeUnchangedText | frontend/src/lib/utils.ts:18-38 | non-JSON text none of whose lines is a JSON `data:` frame (in particular text without `data:`) comes back unchanged |
| FrontendUtils.EscapeHtml | frontend/src/lib/utils.ts:56-60 | definition (no ensures) of the replace chain, `&` first; stated by `EscapeHtmlIsPerCharacter` and `EscapeHtmlSafeAndReversible` |
| FrontendUtils.EscapeHtmlOfChar | frontend/src/lib/utils.ts:56-60 | the replace chain maps each single character to its own entity (or to itself) and never re-escapes the `&` of the entities it inserted |
| FrontendUtils.EscapeHtmlAppend | frontend/src/lib/utils.ts:56-60 | the replace chain distributes over concatenation |
| FrontendUtils.EscapeHtmlIsPerCharacter | frontend/src/lib/utils.ts:56-60 | because `&` is replaced first, the chain equals escaping every character once, left to right |
| FrontendUtils.EscapeEachIsMarkupSafe | frontend/src/lib/utils.ts:56-60 | per-character escaping leaves no raw `<`, `>`, `"`, `'`, and every `&` begins one of the five entities |
| FrontendUtils.UnescapeAfterEscapeChar | frontend/src/lib/utils.ts:56-60 | reading the entities back recovers an escaped character whatever follows it |
| FrontendUtils.UnescapeEscapeEach | frontend/src/lib/utils.ts:56-60 | reading the entities back inverts per-character escaping |
| FrontendUtils.EscapeHtmlSafeAndReversible | frontend/src/lib/utils.ts:56-60 | the escape fallback's output is markup-safe and un-escaping it gives back exactly the input |
| FrontendUtils.HighlightedHtml | frontend/src/lib/utils.ts:45-61 | text that starts (after trimming) with `{` or `[` is Prism's highlight when Prism succeeds; any other text, and text on which Prism throws, is escaped: the result is the replace chain, markup-safe, and un-escapes to the decoded body |
| FrontendUtils.BlockText | frontend/src/lib/utils.ts:102 | definition (no ensures) of `block.text` defaulting to '': a non-empty string `text`, else ""; used by `WholeDocumentPath` |
| FrontendUtils.WholeDocContent | frontend/src/lib/utils.ts:90-108 | an `apiType` with no rule reads nothing, and an OpenAI reply read from the whole document is never empty (JavaScript truthiness); the full cases are `WholeDocumentPath` |
| FrontendUtils.PayloadDelta | frontend/src/lib/utils.ts:119-131 | an `apiType` with no rule adds nothing, and a delta is never empty (JavaScript truthiness) |
| FrontendUtils.FrameDelta | frontend/src/lib/utils.ts:115-134 | a line that is not a JSON `data:` frame (not `data:`, `[DONE]`, or unparseable) adds nothing, and a delta that is added is non-empty |
| FrontendUtils.AiContent | frontend/src/lib/utils.ts:83-143 | definition (no ensures) of `extractAiContent` as a specification; stated by `ExtractAiContent`, `StreamContentInOrder`, `UnknownApiTypeExtractsNothing`, `WholeDocumentPath` and `ApiTypeIsolation` |
| FrontendUtils.AccumulateStream | frontend/src/lib/utils.ts:112-136 | the loop's accumulator ends as the in-order concatenation of every line's delta |
| FrontendUtils.ExtractAiContent | frontend/src/lib/utils.ts:83-143 | the method computes the specification `AiContent`; no body, no `apiType` or an empty one gives None; an empty reply is possible only for Anthropic (whole-document path) |
| FrontendUtils.StreamContentInOrder | frontend/src/lib/utils.ts:113-136 | the streamed reply of `a + [line] + b` is the reply of `a`, then the line's delta, then the reply of `b` |
| FrontendUtils.StreamContentSkipsEmptyFrame | frontend/src/lib/utils.ts:115-134 | a frame contributing nothing (not `data:`, `[DONE]`, unparseable, no delta) can be removed without changing the reply |
| FrontendUtils.StreamContentNoRule | frontend/src/lib/utils.ts:121-131 | with no extraction rule no line contributes anything |
| FrontendUtils.UnknownApiTypeExtractsNothing | frontend/src/lib/utils.ts:92-137 | an `apiType` without a rule (unknown, or `openai_models`) never yields a reply |
| FrontendUtils.WholeDocumentPath | frontend/src/lib/utils.ts:92-104 | for chat/responses a truthy string `choices[0].message.content` is returned directly; for Anthropic a `content` array (without `null` blocks) returns the in-order join of its text blocks, even when empty |
| FrontendUtils.ApiTypeIsolation | frontend/src/lib/utils.ts:92-131 | field paths are protocol-specific: without `choices` the OpenAI types get nothing, without `content` Anthropic gets nothing on the whole-document path, and frames without `choices`/`type` add nothing to the family needing them |
| OpenAiUsage.WrapI32 | backend/src/services/openai/utils.rs:74-77 | `as i32` gives a value in the i32 range, congruent to the input modulo 2^32, and the input itself when it fits |
| OpenAiUsage.Token | backend/src/services/openai/utils.rs:74-85 | a count is present exactly when the member is an i64 integer, and is then its i32 narrowing |
| OpenAiUsage.UsageRuleOf | backend/src/services/openai/utils.rs:69-107 | the models listing (and embeddings in the older copy) has no rule; only AnthropicMessages uses the Anthropic paths |
| OpenAiUsage.OpenAiFields | backend/src/services/openai/utils.rs:73-86 | definition (no ensures): the three `usage` fields, each read with `Token`; stated by `WholeBodyOpenAi` |
| OpenAiUsage.AddI32 | backend/src/services/openai/utils.rs:99-103 | the Anthropic total `i + o` as an i32: in range, congruent to the true sum modulo 2^32, and equal to it when it fits |
| OpenAiUsage.AnthropicWhole | backend/src/services/openai/utils.rs:90-105 | the total is present exactly when both input and output counts are |
| OpenAiUsage.WholeBodyUsage | backend/src/services/openai/utils.rs:68-108 | the whole-body path answers exactly when the body has a `usage` member and the type has a rule |
| OpenAiUsage.FrameUsage | backend/src/services/openai/utils.rs:117-163 | a line yields usage only if it starts with exactly `data: `, is not `[DONE]`, and the type has a rule; the result is never all-None, fits in i32, and for Anthropic has the input count, with a total exactly when an output exists |
| OpenAiUsage.FindFromEnd | backend/src/services/openai/utils.rs:117 | the reverse scan finds nothing exactly when no line yields, and otherwise returns the yield of a line after which no line yields |
| OpenAiUsage.ExtractUsage | backend/src/services/openai/utils.rs:63-168 | definition (no ensures) of `extract_usage`, both copies (the flag says whether embeddings has the OpenAI rule); stated by `ExtractUsageInI32`, `WholeBodyOpenAi`, `WholeBodyAnthropic`, `ScanFallback`, `NoRuleNoUsage` and `CopiesAgree` |
| OpenAiUsage.ExtractUsageInI32 | backend/src/services/openai/utils.rs:63-168 | every count `extract_usage` reports fits in an i32 |
| OpenAiUsage.WholeBodyOpenAi | backend/src/services/openai/utils.rs:68-87 | a JSON body with `usage` answers an OpenAI type with its three fields read independently, even all absent, without scanning lines |
| OpenAiUsage.WholeBodyAnthropic | backend/src/services/openai/utils.rs:89-105 | Anthropic whole-body gives input and output, and a total exactly when both are present, equal to their sum when it fits |
| OpenAiUsage.ScanFallback | backend/src/services/openai/utils.rs:107-121 | the line scan decides the result exactly when the body is not JSON, has no `usage`, or the type has no rule |
| OpenAiUsage.NearestFrameWins | backend/src/services/openai/utils.rs:117-145 | the accepted frame nearest the end decides, whatever precedes it |
| OpenAiUsage.FramesSkipped | backend/src/services/openai/utils.rs:118-145 | lines without the exact `data: ` prefix, `data: [DONE]`, and OpenAI `usage` objects with none of the three fields are passed over |
| OpenAiUsage.FrameAccepted | backend/src/services/openai/utils.rs:142-159 | an OpenAI frame with at least one field reports its three fields; an Anthropic frame is accepted iff it has `input_tokens`, with a total iff the output is present |
| OpenAiUsage.NoRuleNoUsage | backend/src/services/openai/utils.rs:107-167 | the models listing never yields counts, nor does embeddings in the older copy: the result is (None, None, None) |
| OpenAiUsage.CopiesAgree | backend/src/services/openai.rs:465-555 | the older copy agrees with openai/utils.rs on every type but embeddings |
| OpenAiUsage.ElapsedMs | backend/src/services/openai/utils.rs:59-61 | the latency is the millisecond count when it fits in i32 and `i32::MAX` otherwise, never negative |
| OpenAiUsage.ElapsedMsMonotone | backend/src/services/openai/utils.rs:59-61 | a longer elapsed time never reports a shorter latency |
| OpenAiUsage.BuildLogContext | backend/src/services/openai/utils.rs:27-56 | every field of the row is the context's own, the given status, body, content type and usage, `application/json` as request content type, and the latency `ElapsedMs` of the elapsed milliseconds, which fits an i32 |
| RequestRewrite.ExtractModel | backend/src/utils/mod.rs:7-13 | success exactly for an object whose `model` is a string, returned as-is; any failure is `BadRequest("model is required")` |
| RequestRewrite.ExtractModelCases | backend/src/utils/mod.rs:7-13 | an empty model name is accepted; a non-string model or a non-object payload is refused with the same error |
| RequestRewrite.StreamFlag | backend/src/services/openai/responses.rs:42-45 | `stream` is true exactly when the member is the boolean true; absent or not a bool gives false |
| RequestRewrite.Merged | backend/src/services/openai/responses.rs:31-40 | definition (no ensures) of the object after the inserts: `model` first, then each extra field; stated by `MergedMembers` and `NonObjectExtrasIgnored` |
| RequestRewrite.PreparedBodies | backend/src/services/openai/responses.rs:26-51 | definition (no ensures) of `prepare_request_bodies` as a specification; stated by `PrepareRequestBodies`, `PreparedBodyReadsBack` and `PreparedBodiesTests` |
| RequestRewrite.PrepareRequestBodies | backend/src/services/openai/responses.rs:26-51 | the in-place update loop computes the specification `PreparedBodies`; it fails exactly for a non-object payload |
| RequestRewrite.MergedMembers | backend/src/services/openai/responses.rs:31-40 | the merged keys are the payload's, `model` and the extras'; extras override everything, `model` included; other members keep their value; the routed id is the model unless overridden |
| RequestRewrite.NonObjectExtrasIgnored | backend/src/services/openai/responses.rs:36 | a non-object `extra_fields` changes nothing beyond the model, like an empty object |
| RequestRewrite.PreparedBodyReadsBack | backend/src/services/openai/responses.rs:47-50 | when parse inverts the compact printer on objects, the upstream body reads back as the merged object and the flag is its `stream` member |
| RequestRewrite.PreparedBodiesTests | backend/src/services/openai/responses.rs:321-388 | the three unit-test scenarios hold: model rewritten and stream read, extras merged, existing fields overridden |
| RequestRewrite.ProcessRequestFront | backend/src/services/openai/responses.rs:101-129 | a non-object payload fails with "model is required" before routing |
| RequestRewrite.ObjectErrorUnreachable | backend/src/services/openai/responses.rs:101-129 | on that path "payload must be a JSON object" can only come from the route lookup, never from the body preparation |
| RequestRewrite.LegacyPayload | backend/src/services/openai.rs:193-235 | definition (no ensures) of the older payload handling as a specification; stated by `LegacyProcessPayload` and `LegacyPayloadChecks` |
| RequestRewrite.LegacyProcessPayload | backend/src/services/openai.rs:193-235 | the in-place rewrite computes the specification `LegacyPayload` |
| RequestRewrite.LegacyPayloadChecks | backend/src/services/openai.rs:193-235 | object check first, then the model; on success every member but `model` is kept, `model` is the routed id and `stream` is the payload's flag |
| Routing.ParseProviderRealModel | backend/src/services/routing.rs:146-154 | no `:` gives None; a result is the trimmed halves around the first `:`, both non-empty |
| Routing.ParseOfJoined | backend/src/services/routing.rs:146-154 | `brief:model` with a colon-free brief parses to both halves trimmed (the model may contain `:`), or None when either trims to nothing |
| Routing.ParseRoundTrip | backend/src/services/routing.rs:146-154 | writing a trimmed non-empty brief and model as `brief:model` and parsing gives them back |
| Routing.EnforceWhitelist | backend/src/services/routing.rs:126-144 | a query error is passed on; otherwise no error iff the list is empty or holds the exact model, else `Forbidden("model not in whitelist")` |
| Routing.FindEndpoint | backend/src/services/routing.rs:51-53 | None iff no endpoint has the type and is enabled; otherwise the first such endpoint |
| Routing.BriefTargets | backend/src/services/routing.rs:35-77 | at most one direct target, and only for a parsable name whose provider exists and has an enabled endpoint of the type; it carries the model after the `:` |
| Routing.RouteFrom | backend/src/services/routing.rs:85-123 | definition (no ensures) of the route from a target list; stated by `RouteFromTargets`, `RouteErrors` and `RouteInvariants` |
| Routing.ResolvedRoute | backend/src/services/routing.rs:21-124 | definition (no ensures) of `resolve_route` as a specification; stated by `ResolveRoute`, `WhitelistFirst`, `BriefRoute`, `AliasRoute`, `RouteErrors` and `RouteInvariants` |
| Routing.RouteFromTargets | backend/src/services/routing.rs:85-123 | the method computes `RouteFrom`: first target, counter bump only for alias targets, first key, required url |
| Routing.ResolveRoute | backend/src/services/routing.rs:21-124 | the method, with its reassigned target list and alias flag, computes the specification `ResolvedRoute` |
| Routing.WhitelistFirst | backend/src/services/routing.rs:28 | a model the whitelist refuses is Forbidden whatever the database holds, and no counter is incremented |
| Routing.BriefRoute | backend/src/services/routing.rs:35-123 | a usable direct target gives its route with the requested name as alias and the first key, and no alias counter is touched |
| Routing.AliasRoute | backend/src/services/routing.rs:79-123 | without a direct target the alias's first target is used and exactly its counter is incremented |
| Routing.RouteErrors | backend/src/services/routing.rs:85-108 | no targets at all is `unknown model alias: {model}`; a target without keys is an internal error |
| Routing.RouteInvariants | backend/src/services/routing.rs:79-123 | every route's alias is the requested name, and a counter is incremented only after the whitelist passed and the direct path found nothing |
| AuthMiddleware.ExtractModelForWhitelistCheck | backend/src/middleware/auth.rs:93-126 | a model is returned exactly for one of the three paths, a JSON content type and a JSON object body with a string `model`, and it is that string |
| AuthMiddleware.WhitelistCheckOrder | backend/src/middleware/auth.rs:98-123 | the checks fail in order path, content type, JSON, object, model, with their own messages; `/v1/embeddings` is an unsupported path |
| AuthMiddleware.AuthDecision | backend/src/middleware/auth.rs:17-79 | definition (no ensures) of the middleware's decision and whether a failure is recorded; stated by `Authenticate`, `AuthDecisionOrder`, `FailureOnlyForBadKey` and `WhitelistDecision` |
| AuthMiddleware.Authenticate | backend/src/middleware/auth.rs:17-79 | the middleware returns `AuthDecision`'s outcome and records a login failure exactly when that decision says so |
| AuthMiddleware.AuthDecisionOrder | backend/src/middleware/auth.rs:25-45 | a banned client is Forbidden before the key is looked at; a missing or unknown key is Unauthorized and recorded; a failing key query or whitelist query is an `Internal` error carrying the query's error |
| AuthMiddleware.FailureOnlyForBadKey | backend/src/middleware/auth.rs:32-45 | a failure is recorded iff the client is not banned and the key is missing or unknown |
| AuthMiddleware.WhitelistDecision | backend/src/middleware/auth.rs:50-78 | an empty whitelist forwards without reading the body; an unreadable body is a bad request; otherwise Forbidden iff no entry equals the model, else forwarded with the same bytes |
| AuthService.Retain | backend/src/services/auth.rs:57-59 | a failure is retained iff it was recorded and is recent |
| AuthService.RetainCounts | backend/src/services/auth.rs:57-59 | each recent failure is retained as many times as it was recorded, and no other failure is |
| AuthService.RetainKeepsOrder | backend/src/services/auth.rs:57-59 | the retained failures are a subsequence of the recorded ones: the order is kept |
| AuthService.AfterFailure | backend/src/services/auth.rs:43-64 | definition (no ensures) of the records after `record_failure`; stated by `RecordFailure`, `AfterFailureRecord`, `BanIsPermanent` and `SixthFailureBans` |
| AuthService.LoginProtection.constructor | backend/src/services/auth.rs:30-34 | a new protection holds no records |
| AuthService.LoginProtection.IsBanned | backend/src/services/auth.rs:36-41 | banned iff the client has a record that says so; no record means not banned |
| AuthService.LoginProtection.RecordFailure | backend/src/services/auth.rs:43-64 | the push-retain-ban update of the records equals `AfterFailure` |
| AuthService.AfterFailureRecord | backend/src/services/auth.rs:43-64 | a banned client is left alone; otherwise the kept failures are exactly the old and new ones within the minute, each as often as recorded, the new one among them, and the ban is set iff more than five remain; other clients are unchanged |
| AuthService.BanIsPermanent | backend/src/services/auth.rs:25-65 | no failure ever lifts a ban |
| AuthService.SixthFailureBans | backend/src/services/auth.rs:61-63 | a client with five or more failures of the last minute is banned by the next one |
| AuthService.RetainAllRecent | backend/src/services/auth.rs:57-59 | retaining keeps everything when every failure is recent |
| AuthService.ExtractApiKey | backend/src/services/auth.rs:98-110 | None iff there is no readable `Bearer ` authorization and no readable `x-api-key` |
| AuthService.ApiKeySources | backend/src/services/auth.rs:98-110 | `Bearer <token>` gives the token (possibly empty); anything else about authorization falls back to `x-api-key` |
| Http.HeaderToStr | backend/src/middleware/response_cache.rs:198-203 | a header value is readable iff every byte is visible ASCII or a tab, and then reads as those bytes |
| Http.IsJsonContentType | backend/src/middleware/response_cache.rs:198-203 | true iff the content type is present, readable and starts with `application/json` |
| ResponseCache.ApiTypeFromPath | backend/src/middleware/response_cache.rs:188-196 | exactly the four API paths map to a type, never the models listing |
| ResponseCache.ApiTypeFromPathInjective | backend/src/middleware/response_cache.rs:188-196 | distinct cacheable paths map to distinct types |
| ResponseCache.CachedStatus | backend/src/middleware/response_cache.rs:126-131 | a stored status is kept iff it is a valid status code (100-999), otherwise 200 |
| ResponseCache.BuildCachedResponse | backend/src/middleware/response_cache.rs:125-145 | a stored content type that is not a valid header value gives a bare 500 with body "internal server error"; otherwise the status goes through `CachedStatus` and the content type and body are the stored ones |
| ResponseCache.StoredContentTypeBuilds | backend/src/services/openai/responses.rs:233-237 | a content type the gateway stores (the `to_str` text of a header) always rebuilds with the stored status, content type and body |
| ResponseCache.InvalidContentTypeIsInternalError | backend/src/middleware/response_cache.rs:136-144 | a stored `text/plain\n` makes the builder fail, and the answer is the 500 whose body reads "internal server error" |
| ResponseCache.CacheLayerName | backend/src/middleware/response_cache.rs:30-37 | the layer names are "moka" and "database" |
| ResponseCache.CacheLayerNamesDistinct | backend/src/middleware/response_cache.rs:30-37 | the two layer names are distinct |
| ResponseCache.MemoryCache.constructor | backend/src/services/response_cache.rs:39-43 | a new cache is empty |
| ResponseCache.MemoryCache.Get | backend/src/services/response_cache.rs:45-47 | a lookup finds exactly the stored entries |
| ResponseCache.MemoryCache.Insert | backend/src/services/response_cache.rs:49-51 | insert stores the value under the key and changes nothing else |
| ResponseCache.CacheDecision | backend/src/middleware/response_cache.rs:39-123 | definition (no ensures) of the lookup flow as a specification; stated by `Lookup`, `NotCacheable`, `LookupOrder` and `DatabaseHitFillsMemory` |
| ResponseCache.Lookup | backend/src/middleware/response_cache.rs:39-123 | the middleware's outcome and the memory cache afterwards are those of the specification `CacheDecision` |
| ResponseCache.NotCacheable | backend/src/middleware/response_cache.rs:45-75 | no type, no gateway key or a non-JSON content type passes the untouched request through; an empty body passes on as read; an unreadable body is a bad request; the cache is unchanged |
| ResponseCache.LookupOrder | backend/src/middleware/response_cache.rs:77-121 | a memory hit answers from memory whatever the database says; a database hit is stored under the same key and answered; a miss or error forwards the original bytes and stores nothing |
| ResponseCache.DatabaseHitFillsMemory | backend/src/middleware/response_cache.rs:95-111 | after a hit, the same request is answered from memory with the same response |
| BodyHash.HexChar | backend/src/services/response_cache.rs:11-16 | each nibble is written as a lower-case hex digit |
| BodyHash.HexValueOfChar | backend/src/services/response_cache.rs:11-16 | the digit of a nibble reads back as that nibble |
| BodyHash.Hex | backend/src/services/response_cache.rs:10-18 | the hex of n bytes has 2n characters |
| BodyHash.RequestBodyHashHex | backend/src/services/response_cache.rs:10-18 | the push loop writes exactly the hex of the digest |
| BodyHash.HexLayout | backend/src/utils/request_body_hash.rs:11-19 | byte i is written at 2i (high nibble) and 2i+1 (low nibble) |
| BodyHash.HexOfDigest | backend/src/utils/request_body_hash.rs:11-19 | a digest's hex has 32 characters, all in `0-9a-f` |
| BodyHash.HexDecodes | backend/src/services/response_cache.rs:13-16 | each byte is recovered from its two hex digits |
| BodyHash.HexInjective | backend/src/services/response_cache.rs:13-16 | distinct digests have distinct hex strings |
| BodyHash.CanonicalJsonBytes | backend/src/utils/request_body_hash.rs:25-28 | None iff the bytes do not parse as JSON; otherwise the compact re-serialisation of the parsed value |
| BodyHash.HashRequestBody | backend/src/utils/request_body_hash.rs:3-9 | definition (no ensures) of `hash_request_body`; stated by `HashInputChoice` |
| BodyHash.HashRequestBodyHex | backend/src/utils/request_body_hash.rs:21-23 | the result is 32 lower-case hex characters |
| BodyHash.HashInputChoice | backend/src/utils/request_body_hash.rs:3-28 | bodies parsing to the same JSON value hash alike whatever their formatting; non-JSON bodies hash their raw bytes; JSON ones their canonical bytes |
| BodyHash.NewCacheKey | backend/src/services/response_cache.rs:25-31 | the key is the digest of the raw body, so equal bodies give equal keys |
| BodyHash.CacheKeyHexFaithful | backend/src/services/response_cache.rs:20-31 | two keys are equal iff their hex forms (the database lookup argument) are equal |
| DbTypes.ApiTypeName | backend/src/db/types.rs:16-24 | the display strings of the three declared variants |
| DbTypes.ParseApiType | backend/src/db/types.rs:26-37 | exactly the three display strings parse (case-sensitively), and printing the parsed value gives the input back; anything else is `unknown api_type: …` |
| DbTypes.ApiTypeRoundTrip | backend/src/db/types.rs:16-37 | parse inverts display for every declared variant, and display strings are pairwise distinct |
| DbTypes.LbStrategyName | backend/src/db/types.rs:54-62 | the three display strings |
| DbTypes.ParseLbStrategy | backend/src/db/types.rs:64-75 | exactly the three display strings parse, and print back to the input; anything else is `unknown lb_strategy: …` |
| DbTypes.LbStrategyRoundTrip | backend/src/db/types.rs:54-75 | parse inverts display, and display strings are pairwise distinct |
| Stats.Granularity | backend/src/services/stats.rs:12-17 | 1800 s exactly for a window of at most one day (negative included), 21600 s exactly for longer ones |
| Stats.RequestsOverTimeGranularity | backend/src/services/stats.rs:7-19 | one of the two widths, and half hours whenever the end is not after the start |
| Stats.GranularityBoundary | backend/src/services/stats.rs:13 | the boundary is inclusive: exactly one day gives 1800, one nanosecond more 21600, and a negative window 1800 |
| Stats.GranularityMonotone | backend/src/services/stats.rs:13-17 | the width never gets finer as the window grows, and every width divides a day |
| Stats.WiderWindowCoarser | backend/src/services/stats.rs:12-17 | moving the start earlier or the end later never gives finer buckets |

## Left out

- All SQL and the CRUD services and handlers around it. The query results the core uses are inputs. The order by usage count is the order of the given lists.
- `fetch_alias_target_details`, `fetch_provider_keys`, `fetch_gateway_key` and `fetch_model_whitelist` are query wrappers. They are the arrows of `Routing.RoutingDb` and `AuthMiddleware.AuthDb`.
- Sending the upstream request, streaming capture of the reply, listing models, shutdown and background tasks. These are network I/O and concurrency.
- The spawned usage-count increments in `process_request`. They are fire-and-forget tasks, and their failures are ignored.
- The spawned request-log and cache-hit-log writes in the cache middleware, and the latency they measure.
- The JSON grammar, `JSON.stringify`'s placement of integer-like keys, and member order in general. Objects are maps, and parsing and printing belong to `Json.Codec`.
- UTF-8 decoding (`TextDecoder`, `from_utf8_lossy`). Each is a function parameter. `TextDecoder` is built non-fatal, so the `[Binary Data: N bytes]` branch of `decodeBody` is reachable only through a decoder that returns None.
- MD5, Prism, Argon2, JWT and the random key generator. They are foreign libraries.
- moka's capacity and eviction (`ResponseCache.MemoryCache` never forgets an entry), and DashMap's concurrent access (`AuthService.LoginProtection` is single-threaded).
- `RateLimiter::check_and_consume`. Its source is not part of this model.
- The 7-day default window of the stats handler, which reads the clock, and the floating-point cache hit rate.
- The front-end stores and REST clients. They are I/O around trivial list updates.
- `to_vec` failures in `prepare_request_bodies`. Serialising a JSON value does not fail, and the compact printer is total.
- The body size limit of `to_bytes`. Reading the body is an input that is None when it fails.
- FrontendUtils.WholeDocContent: a truthy non-string `message.content` would be returned as is by JavaScript; the model treats every non-string as absent. JavaScript's `||`, `?.` and `+=` coercions are modelled only on strings.
- FrontendUtils.FrameDelta: a truthy non-string delta would be coerced to text by `+=`; the model treats it as absent.
- FrontendUtils.BlockText: a truthy non-string `text` would be coerced by `join`; the model reads it as "".
- OpenAiUsage.AddI32: the i32 sums `input + output` wrap, as in a release build; a debug build would panic on overflow instead.
- OpenAiUsage.ExtractUsage: `str::lines` splits on `\n` and strips one trailing `\r` (`Text.RustLines`); other line terminators are not special.
- Stats.Granularity: `time::Duration` is modelled as an unbounded count of nanoseconds, so its overflow near `i64::MAX` seconds is not modelled.
- ResponseCache.CachedStatus: `StatusCode::from_u16` is modelled as accepting exactly 100 to 999.
