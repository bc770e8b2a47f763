/** The response-cache middleware (backend/src/middleware/response_cache.rs)
    and the in-memory cache it consults (backend/src/services/response_cache.rs):
    a cacheable request is answered from memory, else from the database
    (which also fills the memory cache), else passed on with its body. */
module ResponseCache {
  import opened Wrappers
  import opened Text
  import opened Http
  import opened DbTypes
  import opened AppErrors
  import opened BodyHash

  /** `api_type_from_path`. */
  function ApiTypeFromPath(path: string): (r: Option<ApiType>)
    ensures r.Some? <==> path in {"/v1/chat/completions", "/v1/embeddings", "/v1/responses", "/v1/messages"}
    ensures r.Some? ==> !r.value.OpenAiModels?
  {
    match path
    case "/v1/chat/completions" => Some(OpenAiChatCompletions)
    case "/v1/embeddings" => Some(OpenAiEmbeddings)
    case "/v1/responses" => Some(OpenAiResponses)
    case "/v1/messages" => Some(AnthropicMessages)
    case _ => None
  }

  /** Distinct cacheable paths map to distinct API types. */
  lemma ApiTypeFromPathInjective(p: string, q: string)
    requires ApiTypeFromPath(p).Some? && ApiTypeFromPath(p) == ApiTypeFromPath(q)
    ensures p == q
  {
  }

  /** The stored row the middleware answers from. */
  datatype CachedResponse = CachedResponse(
    sourceRequestLogId: Uuid, statusCode: int, responseContentType: Option<string>, responseBody: seq<byte>)

  /** `u16::try_from(code).ok().and_then(StatusCode::from_u16)`, else 200:
      only three-digit codes are valid statuses. */
  function CachedStatus(code: int): (r: int)
    ensures 100 <= r <= 999
    ensures (100 <= code <= 999) <==> r == code
    ensures !(100 <= code <= 999) ==> r == 200
  {
    if 100 <= code <= 999 then code else 200
  }

  /** The response rebuilt from a cached row. */
  datatype HttpResponse = HttpResponse(status: int, contentType: Option<string>, body: seq<byte>)

  /** Text `builder.header` accepts as a header value: each character is a
      tab, or at least a space and not DEL (characters beyond ASCII encode to
      bytes of 128 and above, which are allowed). */
  predicate IsHeaderValueText(s: string) {
    forall i :: 0 <= i < |s| ==> s[i] == '\t' || (s[i] >= ' ' && s[i] as int != 127)
  }

  /** The bytes of the body of the fallback answer, "internal server error". */
  const InternalServerErrorBody: seq<byte> :=
    [105, 110, 116, 101, 114, 110, 97, 108, 32, 115, 101, 114, 118, 101, 114, 32, 101, 114, 114, 111, 114]

  /** `build_cached_response`: the status falls back to 200, the content
      type is set only when stored, and the body is the stored one. When the
      stored content type is not a valid header value the builder fails and
      the answer is a bare 500 with body "internal server error". */
  function BuildCachedResponse(cached: CachedResponse): (r: HttpResponse)
    ensures cached.responseContentType.Some? && !IsHeaderValueText(cached.responseContentType.value) ==>
              r == HttpResponse(500, None, InternalServerErrorBody)
    ensures !(cached.responseContentType.Some? && !IsHeaderValueText(cached.responseContentType.value)) ==>
              r.status == CachedStatus(cached.statusCode)
              && r.contentType == cached.responseContentType && r.body == cached.responseBody
  {
    if cached.responseContentType.Some? && !IsHeaderValueText(cached.responseContentType.value) then
      HttpResponse(500, None, InternalServerErrorBody)
    else
      HttpResponse(CachedStatus(cached.statusCode), cached.responseContentType, cached.responseBody)
  }

  /** A content type the gateway stores is the `to_str` text of a header
      value, so a row it wrote always rebuilds with its own status, content
      type and body; only a row written by someone else can reach the 500. */
  lemma StoredContentTypeBuilds(cached: CachedResponse, header: seq<byte>)
    requires HeaderToStr(header).Some? && cached.responseContentType == HeaderToStr(header)
    ensures BuildCachedResponse(cached)
            == HttpResponse(CachedStatus(cached.statusCode), cached.responseContentType, cached.responseBody)
  {
  }

  /** A line break in a stored content type is refused by the builder. */
  lemma InvalidContentTypeIsInternalError(cached: CachedResponse)
    requires cached.responseContentType == Some("text/plain\n")
    ensures BuildCachedResponse(cached) == HttpResponse(500, None, InternalServerErrorBody)
    ensures BytesAsChars(BuildCachedResponse(cached).body) == "internal server error"
  {
    assert "text/plain\n"[10] == '\n';
  }

  /** Where a hit was served from. */
  datatype CacheLayer = Moka | Database

  /** `CacheLayer::as_str`. */
  function CacheLayerName(layer: CacheLayer): (s: string)
    ensures s in {"moka", "database"}
  {
    match layer
    case Moka => "moka"
    case Database => "database"
  }

  lemma CacheLayerNamesDistinct(a: CacheLayer, b: CacheLayer)
    ensures CacheLayerName(a) == CacheLayerName(b) <==> a == b
  {
  }

  /** `ResponseCache`: the in-memory map from key to cached row. Capacity
      and eviction are not modelled. */
  class MemoryCache {
    var entries: map<ResponseCacheKey, CachedResponse>

    constructor()
      ensures entries == map[]
    {
      entries := map[];
    }

    function Get(key: ResponseCacheKey): (r: Option<CachedResponse>)
      reads this
      ensures r.Some? <==> key in entries
      ensures r.Some? ==> r.value == entries[key]
    {
      if key in entries then Some(entries[key]) else None
    }

    method Insert(key: ResponseCacheKey, value: CachedResponse)
      modifies this
      ensures entries == old(entries)[key := value]
    {
      entries := entries[key := value];
    }
  }

  /** An incoming request: path, the gateway key id the auth middleware
      attached (if any), headers, and the outcome of reading its body (None
      when reading fails). */
  datatype CacheRequest = CacheRequest(
    path: string, gatewayKeyId: Option<Uuid>, headers: HeaderMap, body: Option<seq<byte>>)

  /** What the middleware does. `PassThrough(None)` runs the rest of the
      stack on the untouched request; `PassThrough(Some(bytes))` on the
      request rebuilt from the bytes read. */
  datatype CacheOutcome =
    | PassThrough(rebuilt: Option<seq<byte>>)
    | Answered(response: HttpResponse, layer: CacheLayer)
    | Refused(error: AppError)

  function ContentTypeOf(headers: HeaderMap): Option<seq<byte>> {
    if "content-type" in headers then Some(headers["content-type"]) else None
  }

  /** The lookup flow of `response_cache_middleware`, as a specification:
      the outcome and the memory cache afterwards. `findCached` is the
      database query by hex digest. */
  function CacheDecision(md5: Md5, entries: map<ResponseCacheKey, CachedResponse>,
                         findCached: string -> Result<Option<CachedResponse>, AppError>,
                         req: CacheRequest): (CacheOutcome, map<ResponseCacheKey, CachedResponse>) {
    if ApiTypeFromPath(req.path).None? || req.gatewayKeyId.None? || !IsJsonContentType(ContentTypeOf(req.headers)) then
      (PassThrough(None), entries)
    else
      match req.body
      case None => (Refused(BadRequest("invalid request body")), entries)
      case Some(bytes) =>
        if |bytes| == 0 then (PassThrough(Some(bytes)), entries)
        else
          var key := NewCacheKey(md5, bytes);
          if key in entries then (Answered(BuildCachedResponse(entries[key]), Moka), entries)
          else
            match findCached(Hex(key.requestBodyHash))
            case Success(Some(cached)) => (Answered(BuildCachedResponse(cached), Database), entries[key := cached])
            case _ => (PassThrough(Some(bytes)), entries)
  }

  /** `response_cache_middleware` on the shared memory cache. */
  method Lookup(md5: Md5, cache: MemoryCache,
                findCached: string -> Result<Option<CachedResponse>, AppError>, req: CacheRequest)
    returns (outcome: CacheOutcome)
    modifies cache
    ensures (outcome, cache.entries) == CacheDecision(md5, old(cache.entries), findCached, req)
  {
    if ApiTypeFromPath(req.path).None? {
      return PassThrough(None);
    }
    if req.gatewayKeyId.None? {
      return PassThrough(None);
    }
    if !IsJsonContentType(ContentTypeOf(req.headers)) {
      return PassThrough(None);
    }
    if req.body.None? {
      return Refused(BadRequest("invalid request body"));
    }
    var requestBytes := req.body.value;
    if |requestBytes| == 0 {
      return PassThrough(Some(requestBytes));
    }
    var cacheKey := NewCacheKey(md5, requestBytes);
    var hit := cache.Get(cacheKey);
    if hit.Some? {
      return Answered(BuildCachedResponse(hit.value), Moka);
    }
    var requestBodyHash := RequestBodyHashHex(cacheKey.requestBodyHash);
    var found := findCached(requestBodyHash);
    if found.Success? && found.value.Some? {
      cache.Insert(cacheKey, found.value.value);
      return Answered(BuildCachedResponse(found.value.value), Database);
    }
    return PassThrough(Some(requestBytes));
  }

  /** Requests that are not cacheable pass through untouched and leave the
      cache alone: an unknown path, no gateway key, a non-JSON content type;
      an empty body is passed on as read. */
  lemma NotCacheable(md5: Md5, entries: map<ResponseCacheKey, CachedResponse>,
                     findCached: string -> Result<Option<CachedResponse>, AppError>, req: CacheRequest)
    ensures ApiTypeFromPath(req.path).None? || req.gatewayKeyId.None? || !IsJsonContentType(ContentTypeOf(req.headers))
            ==> CacheDecision(md5, entries, findCached, req) == (PassThrough(None), entries)
    ensures ApiTypeFromPath(req.path).Some? && req.gatewayKeyId.Some? && IsJsonContentType(ContentTypeOf(req.headers))
            && req.body == Some([])
            ==> CacheDecision(md5, entries, findCached, req) == (PassThrough(Some([])), entries)
    ensures ApiTypeFromPath(req.path).Some? && req.gatewayKeyId.Some? && IsJsonContentType(ContentTypeOf(req.headers))
            && req.body.None?
            ==> CacheDecision(md5, entries, findCached, req) == (Refused(BadRequest("invalid request body")), entries)
  {
  }

  /** A memory hit answers from memory whatever the database holds; a
      database hit is first stored under the same key; a miss or a database
      error passes the original bytes on and stores nothing. */
  lemma LookupOrder(md5: Md5, entries: map<ResponseCacheKey, CachedResponse>,
                    findCached: string -> Result<Option<CachedResponse>, AppError>,
                    other: string -> Result<Option<CachedResponse>, AppError>, req: CacheRequest)
    requires ApiTypeFromPath(req.path).Some? && req.gatewayKeyId.Some? && IsJsonContentType(ContentTypeOf(req.headers))
    requires req.body.Some? && |req.body.value| > 0
    ensures var key := NewCacheKey(md5, req.body.value);
            && (key in entries ==>
                  CacheDecision(md5, entries, findCached, req) == (Answered(BuildCachedResponse(entries[key]), Moka), entries)
                  && CacheDecision(md5, entries, findCached, req) == CacheDecision(md5, entries, other, req))
            && (key !in entries && findCached(Hex(key.requestBodyHash)).Success?
                && findCached(Hex(key.requestBodyHash)).value.Some? ==>
                  var cached := findCached(Hex(key.requestBodyHash)).value.value;
                  CacheDecision(md5, entries, findCached, req)
                  == (Answered(BuildCachedResponse(cached), Database), entries[key := cached]))
            && (key !in entries && !(findCached(Hex(key.requestBodyHash)).Success?
                                     && findCached(Hex(key.requestBodyHash)).value.Some?) ==>
                  CacheDecision(md5, entries, findCached, req) == (PassThrough(req.body), entries))
  {
  }

  /** After a database hit, the same request is a memory hit with the same
      answer. */
  lemma DatabaseHitFillsMemory(md5: Md5, entries: map<ResponseCacheKey, CachedResponse>,
                               findCached: string -> Result<Option<CachedResponse>, AppError>,
                               other: string -> Result<Option<CachedResponse>, AppError>, req: CacheRequest)
    requires CacheDecision(md5, entries, findCached, req).0.Answered?
    ensures var (first, after) := CacheDecision(md5, entries, findCached, req);
            CacheDecision(md5, after, other, req) == (Answered(first.response, Moka), after)
  {
  }
}
