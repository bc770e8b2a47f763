/** The gateway-key middleware (backend/src/middleware/auth.rs): banned
    clients are refused, the API key is looked up (a missing or unknown key
    counts as a login failure), and when the key has a model whitelist the
    request body is read to check its `model`. */
module AuthMiddleware {
  import opened Wrappers
  import opened Text
  import opened Json
  import opened Http
  import opened DbTypes
  import opened AppErrors
  import opened AuthService

  /** The three paths whose body names a model. */
  predicate IsChatPath(path: string) {
    path == "/v1/chat/completions" || path == "/v1/responses" || path == "/v1/messages"
  }

  /** `extract_model_for_whitelist_check`. */
  function ExtractModelForWhitelistCheck(codec: Codec, path: string, contentType: Option<seq<byte>>,
                                         body: seq<byte>): (r: Result<string, AppError>)
    ensures r.Success? ==>
              IsChatPath(path) && IsJsonContentType(contentType) && codec.parseBytes(body).Some?
              && GetStr(codec.parseBytes(body).value, "model") == Some(r.value)
    ensures IsChatPath(path) && IsJsonContentType(contentType) && codec.parseBytes(body).Some?
            && codec.parseBytes(body).value.JObject? && GetStr(codec.parseBytes(body).value, "model").Some?
            ==> r == Success(GetStr(codec.parseBytes(body).value, "model").value)
  {
    if !IsChatPath(path) then Failure(BadRequest("unsupported API path"))
    else if !IsJsonContentType(contentType) then Failure(BadRequest("content-type must be application/json"))
    else
      match codec.parseBytes(body)
      case None => Failure(BadRequest("invalid request body"))
      case Some(payload) =>
        if !payload.JObject? then Failure(BadRequest("payload must be a JSON object"))
        else
          match GetStr(payload, "model")
          case None => Failure(BadRequest("model is required"))
          case Some(model) => Success(model)
  }

  /** The checks fail in a fixed order: path, then content type, then JSON,
      then object, then the `model` member; `/v1/embeddings` is not a path
      that passes. */
  lemma WhitelistCheckOrder(codec: Codec, path: string, contentType: Option<seq<byte>>, body: seq<byte>)
    ensures !IsChatPath(path) ==>
              ExtractModelForWhitelistCheck(codec, path, contentType, body) == Failure(BadRequest("unsupported API path"))
    ensures IsChatPath(path) && !IsJsonContentType(contentType) ==>
              ExtractModelForWhitelistCheck(codec, path, contentType, body)
              == Failure(BadRequest("content-type must be application/json"))
    ensures IsChatPath(path) && IsJsonContentType(contentType) && codec.parseBytes(body).None? ==>
              ExtractModelForWhitelistCheck(codec, path, contentType, body) == Failure(BadRequest("invalid request body"))
    ensures IsChatPath(path) && IsJsonContentType(contentType) && codec.parseBytes(body).Some?
            && !codec.parseBytes(body).value.JObject? ==>
              ExtractModelForWhitelistCheck(codec, path, contentType, body)
              == Failure(BadRequest("payload must be a JSON object"))
    ensures IsChatPath(path) && IsJsonContentType(contentType) && codec.parseBytes(body).Some?
            && codec.parseBytes(body).value.JObject? && GetStr(codec.parseBytes(body).value, "model").None? ==>
              ExtractModelForWhitelistCheck(codec, path, contentType, body) == Failure(BadRequest("model is required"))
    ensures ExtractModelForWhitelistCheck(codec, "/v1/embeddings", contentType, body)
            == Failure(BadRequest("unsupported API path"))
  {
  }

  /** The queries the middleware makes: the gateway key by API key (its id
      when it exists) and the key's model whitelist. A failing query yields
      its error's text, which the middleware wraps as `Internal`. */
  datatype AuthDb = AuthDb(
    gatewayKey: string -> Result<Option<Uuid>, string>,
    modelWhitelist: Uuid -> Result<seq<string>, string>)

  /** An incoming request: client IP, path, headers, and the outcome of
      reading its body up to the size limit (None when reading fails). */
  datatype Request = Request(ip: string, path: string, headers: HeaderMap, body: Option<seq<byte>>)

  /** What the middleware does with a request. `Forwarded` passes it on with
      the gateway key id attached; `rebuilt` is None when the body was not
      read, and otherwise the bytes reattached to the request. */
  datatype AuthOutcome =
    | Rejected(error: AppError)
    | Forwarded(gatewayKeyId: Uuid, rebuilt: Option<seq<byte>>)

  /** The decision of `auth_middleware`, given whether the client is banned;
      the flag says whether a login failure is recorded. */
  function AuthDecision(codec: Codec, db: AuthDb, banned: bool, req: Request): (AuthOutcome, bool) {
    if banned then (Rejected(Forbidden("IP permanently banned due to excessive login failures")), false)
    else
      match ExtractApiKey(req.headers)
      case None => (Rejected(Unauthorized), true)
      case Some(apiKey) =>
        match db.gatewayKey(apiKey)
        case Failure(e) => (Rejected(Internal(e)), false)
        case Success(None) => (Rejected(Unauthorized), true)
        case Success(Some(keyId)) =>
          match db.modelWhitelist(keyId)
          case Failure(e) => (Rejected(Internal(e)), false)
          case Success(whitelist) =>
            if |whitelist| == 0 then (Forwarded(keyId, None), false)
            else
              match req.body
              case None => (Rejected(BadRequest("invalid request body")), false)
              case Some(bytes) =>
                match ExtractModelForWhitelistCheck(codec, req.path, ContentType(req.headers), bytes)
                case Failure(e) => (Rejected(e), false)
                case Success(model) =>
                  if model !in whitelist then (Rejected(Forbidden("model not in whitelist")), false)
                  else (Forwarded(keyId, Some(bytes)), false)
  }

  function ContentType(headers: HeaderMap): Option<seq<byte>> {
    if "content-type" in headers then Some(headers["content-type"]) else None
  }

  /** `auth_middleware`, on the shared login protection. */
  method Authenticate(codec: Codec, db: AuthDb, protection: LoginProtection, req: Request, now: int)
    returns (outcome: AuthOutcome)
    modifies protection
    ensures var (o, failed) := AuthDecision(codec, db, old(protection.IsBanned(req.ip)), req);
            && outcome == o
            && protection.records == (if failed then AfterFailure(old(protection.records), req.ip, now)
                                      else old(protection.records))
  {
    if protection.IsBanned(req.ip) {
      return Rejected(Forbidden("IP permanently banned due to excessive login failures"));
    }
    var apiKey := ExtractApiKey(req.headers);
    if apiKey.None? {
      protection.RecordFailure(req.ip, now);
      return Rejected(Unauthorized);
    }
    var gatewayKey := db.gatewayKey(apiKey.value);
    if gatewayKey.Failure? {
      return Rejected(Internal(gatewayKey.error));
    }
    if gatewayKey.value.None? {
      protection.RecordFailure(req.ip, now);
      return Rejected(Unauthorized);
    }
    var keyId := gatewayKey.value.value;
    var whitelist := db.modelWhitelist(keyId);
    if whitelist.Failure? {
      return Rejected(Internal(whitelist.error));
    }
    if |whitelist.value| == 0 {
      return Forwarded(keyId, None);
    }
    if req.body.None? {
      return Rejected(BadRequest("invalid request body"));
    }
    var model := ExtractModelForWhitelistCheck(codec, req.path, ContentType(req.headers), req.body.value);
    if model.Failure? {
      return Rejected(model.error);
    }
    if model.value !in whitelist.value {
      return Rejected(Forbidden("model not in whitelist"));
    }
    return Forwarded(keyId, req.body);
  }

  /** A banned client is refused before its key is looked at, and nothing is
      recorded; a missing or unknown key is Unauthorized and recorded as a
      failure; a failing key or whitelist query is an Internal error carrying
      the query's error and records nothing. */
  lemma AuthDecisionOrder(codec: Codec, db: AuthDb, req: Request)
    ensures AuthDecision(codec, db, true, req)
            == (Rejected(Forbidden("IP permanently banned due to excessive login failures")), false)
    ensures ExtractApiKey(req.headers).None? ==> AuthDecision(codec, db, false, req) == (Rejected(Unauthorized), true)
    ensures ExtractApiKey(req.headers).Some? && db.gatewayKey(ExtractApiKey(req.headers).value) == Success(None)
            ==> AuthDecision(codec, db, false, req) == (Rejected(Unauthorized), true)
    ensures ExtractApiKey(req.headers).Some? && db.gatewayKey(ExtractApiKey(req.headers).value).Failure?
            ==> AuthDecision(codec, db, false, req)
                == (Rejected(Internal(db.gatewayKey(ExtractApiKey(req.headers).value).error)), false)
    ensures ExtractApiKey(req.headers).Some? && db.gatewayKey(ExtractApiKey(req.headers).value).Success?
            && db.gatewayKey(ExtractApiKey(req.headers).value).value.Some?
            && db.modelWhitelist(db.gatewayKey(ExtractApiKey(req.headers).value).value.value).Failure?
            ==> AuthDecision(codec, db, false, req)
                == (Rejected(Internal(db.modelWhitelist(db.gatewayKey(ExtractApiKey(req.headers).value).value.value).error)),
                    false)
  {
  }

  /** A failure is recorded only for a missing or unknown key. */
  lemma FailureOnlyForBadKey(codec: Codec, db: AuthDb, banned: bool, req: Request)
    ensures AuthDecision(codec, db, banned, req).1 <==>
              !banned && (ExtractApiKey(req.headers).None?
                          || db.gatewayKey(ExtractApiKey(req.headers).value) == Success(None))
  {
  }

  /** With a known key: an empty whitelist forwards without reading the body
      (even an unreadable one); otherwise the request is Forbidden exactly
      when no entry equals its model, and forwarded with the same bytes when
      one does. */
  lemma WhitelistDecision(codec: Codec, db: AuthDb, req: Request, keyId: Uuid, whitelist: seq<string>)
    requires ExtractApiKey(req.headers).Some?
    requires db.gatewayKey(ExtractApiKey(req.headers).value) == Success(Some(keyId))
    requires db.modelWhitelist(keyId) == Success(whitelist)
    ensures |whitelist| == 0 ==> AuthDecision(codec, db, false, req) == (Forwarded(keyId, None), false)
    ensures |whitelist| > 0 && req.body.None? ==>
              AuthDecision(codec, db, false, req) == (Rejected(BadRequest("invalid request body")), false)
    ensures |whitelist| > 0 && req.body.Some?
            && ExtractModelForWhitelistCheck(codec, req.path, ContentType(req.headers), req.body.value).Success?
            ==> var model := ExtractModelForWhitelistCheck(codec, req.path, ContentType(req.headers), req.body.value).value;
                AuthDecision(codec, db, false, req).0
                == if forall i :: 0 <= i < |whitelist| ==> whitelist[i] != model
                   then Rejected(Forbidden("model not in whitelist"))
                   else Forwarded(keyId, req.body)
  {
  }
}
