/** The rewrite of a client's JSON request into the upstream request:
    the model is taken from the payload, replaced by the routed provider
    model, merged with the route's extra fields, and the `stream` flag is
    read (backend/src/utils/mod.rs, backend/src/services/openai/responses.rs
    and the older backend/src/services/openai.rs). */
module RequestRewrite {
  import opened Wrappers
  import opened Text
  import opened Json
  import opened AppErrors

  /** `extract_model_from_payload`: the string `model` member of an object. */
  function ExtractModel(payload: Json): (r: Result<string, AppError>)
    ensures r.Success? <==> payload.JObject? && "model" in payload.fields && payload.fields["model"].JString?
    ensures r.Success? ==> payload.fields["model"] == JString(r.value)
    ensures r.Failure? ==> r.error == BadRequest("model is required")
  {
    match GetStr(payload, "model")
    case Some(m) => Success(m)
    case None => Failure(BadRequest("model is required"))
  }

  /** No emptiness check: an empty model name is taken as it is; a model of
      another JSON type, or a payload that is not an object, is refused. */
  lemma ExtractModelCases(payload: Json, v: Json)
    ensures ExtractModel(JObject(map["model" := JString("")])) == Success("")
    ensures !v.JString? ==> ExtractModel(JObject(map["model" := v])) == Failure(BadRequest("model is required"))
    ensures !payload.JObject? ==> ExtractModel(payload) == Failure(BadRequest("model is required"))
  {
  }

  /** `payload.get("stream").and_then(Value::as_bool).unwrap_or(false)`. */
  function StreamFlag(fields: map<string, Json>): (r: bool)
    ensures r <==> "stream" in fields && fields["stream"] == JBool(true)
  {
    GetBool(JObject(fields), "stream").GetOr(false)
  }

  /** The upstream object of `prepare_request_bodies`: the payload's members,
      `model` set to the routed id, then every member of an object
      `extraFields` inserted over them. */
  function Merged(fields: map<string, Json>, routedModelId: string, extraFields: Json): map<string, Json> {
    var withModel := fields["model" := JString(routedModelId)];
    if extraFields.JObject? then withModel + extraFields.fields else withModel
  }

  /** `prepare_request_bodies`, as a specification. */
  function PreparedBodies(codec: Codec, payload: Json, routedModelId: string, extraFields: Json)
    : Result<(seq<byte>, bool), AppError>
  {
    if !payload.JObject? then Failure(BadRequest("payload must be a JSON object"))
    else
      var merged := Merged(payload.fields, routedModelId, extraFields);
      Success((codec.compact(JObject(merged)), StreamFlag(merged)))
  }

  /** `prepare_request_bodies`: the payload's map is updated in place, first
      with the routed model and then with each extra field in turn. */
  method PrepareRequestBodies(codec: Codec, payload: Json, routedModelId: string, extraFields: Json)
    returns (r: Result<(seq<byte>, bool), AppError>)
    ensures r == PreparedBodies(codec, payload, routedModelId, extraFields)
    ensures r.Failure? <==> !payload.JObject?
  {
    if !payload.JObject? {
      return Failure(BadRequest("payload must be a JSON object"));
    }
    var fields := payload.fields;
    fields := fields["model" := JString(routedModelId)];
    ghost var withModel := fields;
    if extraFields.JObject? {
      var extras := extraFields.fields;
      var remaining := extras.Keys;
      while remaining != {}
        invariant remaining <= extras.Keys
        invariant fields == withModel + map k | k in extras.Keys - remaining :: extras[k]
        decreases remaining
      {
        var k :| k in remaining;
        fields := fields[k := extras[k]];
        remaining := remaining - {k};
      }
      assert extras.Keys - remaining == extras.Keys;
      assert (map k | k in extras.Keys :: extras[k]) == extras;
    }
    var stream := StreamFlag(fields);
    return Success((codec.compact(JObject(fields)), stream));
  }

  /** Extra fields override whatever is there, the model included; members
      not named by them keep their value; the routed model replaces the
      client's unless an extra field names `model`. */
  lemma MergedMembers(fields: map<string, Json>, routedModelId: string, extraFields: Json, k: string)
    ensures var m := Merged(fields, routedModelId, extraFields);
            && m.Keys == fields.Keys + {"model"} + (if extraFields.JObject? then extraFields.fields.Keys else {})
            && (extraFields.JObject? && k in extraFields.fields ==> m[k] == extraFields.fields[k])
            && (!(extraFields.JObject? && k in extraFields.fields) && k != "model" && k in fields ==> m[k] == fields[k])
            && (!(extraFields.JObject? && "model" in extraFields.fields) ==> m["model"] == JString(routedModelId))
  {
  }

  /** An `extraFields` that is not an object changes nothing but the model. */
  lemma NonObjectExtrasIgnored(fields: map<string, Json>, routedModelId: string, extraFields: Json)
    requires !extraFields.JObject?
    ensures Merged(fields, routedModelId, extraFields) == fields["model" := JString(routedModelId)]
    ensures Merged(fields, routedModelId, extraFields) == Merged(fields, routedModelId, JObject(map[]))
  {
  }

  /** When the writer and reader are mutually inverse on objects, the
      upstream body reads back as the merged object: it has the routed
      model (unless overridden) and the extra fields, and the flag is its
      `stream` member. */
  lemma PreparedBodyReadsBack(codec: Codec, fields: map<string, Json>, routedModelId: string, extraFields: Json)
    requires forall m: map<string, Json> :: codec.parseBytes(codec.compact(JObject(m))) == Some(JObject(m))
    ensures var r := PreparedBodies(codec, JObject(fields), routedModelId, extraFields);
            && r.Success?
            && codec.parseBytes(r.value.0) == Some(JObject(Merged(fields, routedModelId, extraFields)))
            && (r.value.1 <==> var m := Merged(fields, routedModelId, extraFields);
                               "stream" in m && m["stream"] == JBool(true))
  {
    var m := Merged(fields, routedModelId, extraFields);
    assert codec.parseBytes(codec.compact(JObject(m))) == Some(JObject(m));
  }

  /** The three unit tests of responses.rs, on the specification. */
  lemma PreparedBodiesTests()
    ensures var fields := map["model" := JString("alias-model"), "input" := JString("hello"), "stream" := JBool(true)];
            var m := Merged(fields, "provider-model", JObject(map[]));
            StreamFlag(m) && m["model"] == JString("provider-model")
    ensures var fields := map["model" := JString("alias-model"), "messages" := JArray([])];
            var extras := map["enable_thinking" := JBool(true), "temperature" := JFloat("0.7")];
            var m := Merged(fields, "provider-model", JObject(extras));
            m["model"] == JString("provider-model") && m["enable_thinking"] == JBool(true)
            && m["temperature"] == JFloat("0.7")
    ensures var fields := map["model" := JString("alias-model"), "temperature" := JFloat("0.9"),
                              "enable_thinking" := JBool(false)];
            var m := Merged(fields, "provider-model", JObject(map["enable_thinking" := JBool(true)]));
            m["enable_thinking"] == JBool(true) && m["temperature"] == JFloat("0.9")
  {
  }

  /** The front of `process_request` in openai/responses.rs: the model is
      extracted, the route resolved (to the provider model id and the extra
      fields), and the upstream body prepared. */
  function ProcessRequestFront(codec: Codec, payload: Json, resolve: string -> Result<(string, Json), AppError>)
    : (r: Result<(seq<byte>, bool), AppError>)
    ensures !payload.JObject? ==> r == Failure(BadRequest("model is required"))
  {
    match ExtractModel(payload)
    case Failure(e) => Failure(e)
    case Success(model) =>
      match resolve(model)
      case Failure(e) => Failure(e)
      case Success(route) => PreparedBodies(codec, payload, route.0, route.1)
  }

  /** On that path a payload reaching `prepare_request_bodies` is always an
      object, so its "payload must be a JSON object" error is only ever seen
      when routing itself reports it. */
  lemma ObjectErrorUnreachable(codec: Codec, payload: Json, resolve: string -> Result<(string, Json), AppError>)
    ensures ProcessRequestFront(codec, payload, resolve) == Failure(BadRequest("payload must be a JSON object"))
            ==> ExtractModel(payload).Success?
                && resolve(ExtractModel(payload).value) == Failure(BadRequest("payload must be a JSON object"))
  {
  }

  /** The payload handling of `process_request` in openai.rs, as a
      specification: object check, model check, route, then `model` is
      overwritten in place and `stream` read. */
  function LegacyPayload(payload: Json, resolve: string -> Result<string, AppError>)
    : Result<(map<string, Json>, bool), AppError>
  {
    if !payload.JObject? then Failure(BadRequest("payload must be a JSON object"))
    else
      match GetStr(payload, "model")
      case None => Failure(BadRequest("model is required"))
      case Some(model) =>
        match resolve(model)
        case Failure(e) => Failure(e)
        case Success(modelId) =>
          var fields := payload.fields["model" := JString(modelId)];
          Success((fields, StreamFlag(fields)))
  }

  /** The payload handling of `process_request` in openai.rs. */
  method LegacyProcessPayload(payload: Json, resolve: string -> Result<string, AppError>)
    returns (r: Result<(map<string, Json>, bool), AppError>)
    ensures r == LegacyPayload(payload, resolve)
  {
    if !payload.JObject? {
      return Failure(BadRequest("payload must be a JSON object"));
    }
    var payloadObject := payload.fields;
    var model := GetStr(payload, "model");
    if model.None? {
      return Failure(BadRequest("model is required"));
    }
    var route := resolve(model.value);
    if route.Failure? {
      return Failure(route.error);
    }
    payloadObject := payloadObject["model" := JString(route.value)];
    var stream := StreamFlag(payloadObject);
    return Success((payloadObject, stream));
  }

  /** The older copy checks the payload shape before the model, routes only a
      payload it accepts, and keeps every member but `model`, which becomes
      the routed id; `stream` is unaffected by the rewrite. */
  lemma LegacyPayloadChecks(payload: Json, resolve: string -> Result<string, AppError>)
    ensures !payload.JObject? ==> LegacyPayload(payload, resolve) == Failure(BadRequest("payload must be a JSON object"))
    ensures payload.JObject? && GetStr(payload, "model").None? ==>
              LegacyPayload(payload, resolve) == Failure(BadRequest("model is required"))
    ensures LegacyPayload(payload, resolve).Success? ==>
              var (fields, stream) := LegacyPayload(payload, resolve).value;
              && ExtractModel(payload).Success?
              && resolve(ExtractModel(payload).value).Success?
              && fields["model"] == JString(resolve(ExtractModel(payload).value).value)
              && (forall k :: k in payload.fields && k != "model" ==> k in fields && fields[k] == payload.fields[k])
              && fields.Keys == payload.fields.Keys + {"model"}
              && stream == StreamFlag(payload.fields)
  {
  }
}
