/** Token accounting and request-log assembly of the upstream proxy
    (backend/src/services/openai/utils.rs, and the older copy of
    `extract_usage` in backend/src/services/openai.rs). */
module OpenAiUsage {
  import opened Wrappers
  import opened Text
  import opened Json
  import opened DbTypes

  const I32Min: int := -0x8000_0000
  const I32Max: int := 0x7FFF_FFFF
  const TwoTo32: int := 0x1_0000_0000

  /** Rust's `v as i32`: the low 32 bits of `v`, read in two's complement. */
  function WrapI32(v: int): (r: int)
    ensures I32Min <= r <= I32Max
    ensures (v - r) % TwoTo32 == 0
    ensures I32Min <= v <= I32Max ==> r == v
  {
    var m := v % TwoTo32;
    if m <= I32Max then m else m - TwoTo32
  }

  /** `usage.get(key).and_then(Value::as_i64).map(|v| v as i32)`. */
  function Token(usage: Json, key: string): (r: Option<int>)
    ensures r.Some? <==> GetI64(usage, key).Some?
    ensures r.Some? ==> I32Min <= r.value <= I32Max && (GetI64(usage, key).value - r.value) % TwoTo32 == 0
  {
    match GetI64(usage, key)
    case Some(v) => Some(WrapI32(v))
    case None => None
  }

  /** The triple `(prompt, completion, total)` that `extract_usage` returns. */
  datatype Usage = Usage(prompt: Option<int>, completion: Option<int>, total: Option<int>)

  const NoUsage: Usage := Usage(None, None, None)

  predicate InI32(u: Usage) {
    (u.prompt.Some? ==> I32Min <= u.prompt.value <= I32Max)
    && (u.completion.Some? ==> I32Min <= u.completion.value <= I32Max)
    && (u.total.Some? ==> I32Min <= u.total.value <= I32Max)
  }

  /** Which field paths an API type is read with. */
  datatype UsageRule = OpenAiRule | AnthropicRule | NoUsageRule

  /** The arms of the `match api_type`: embeddings is an OpenAI type in
      openai/utils.rs (`embeddingsIsOpenAi`) and has no arm in openai.rs;
      the models listing never carries usage. */
  function UsageRuleOf(t: ApiType, embeddingsIsOpenAi: bool): (r: UsageRule)
    ensures r == NoUsageRule <==> t.OpenAiModels? || (t.OpenAiEmbeddings? && !embeddingsIsOpenAi)
    ensures r == AnthropicRule <==> t.AnthropicMessages?
  {
    match t
    case OpenAiChatCompletions => OpenAiRule
    case OpenAiResponses => OpenAiRule
    case OpenAiEmbeddings => if embeddingsIsOpenAi then OpenAiRule else NoUsageRule
    case AnthropicMessages => AnthropicRule
    case OpenAiModels => NoUsageRule
  }

  /** The three OpenAI fields, each read on its own. */
  function OpenAiFields(usage: Json): Usage {
    Usage(Token(usage, "prompt_tokens"), Token(usage, "completion_tokens"), Token(usage, "total_tokens"))
  }

  /** The i32 addition `input + output` (wrapping, as a release build does). */
  function AddI32(a: int, b: int): (r: int)
    ensures I32Min <= r <= I32Max
    ensures (a + b - r) % TwoTo32 == 0
    ensures I32Min <= a + b <= I32Max ==> r == a + b
  {
    WrapI32(a + b)
  }

  /** The Anthropic fields of a whole-body `usage`: the total is the sum when
      both counts are present. */
  function AnthropicWhole(usage: Json): (r: Usage)
    ensures r.total.Some? <==> r.prompt.Some? && r.completion.Some?
  {
    var input := Token(usage, "input_tokens");
    var output := Token(usage, "output_tokens");
    Usage(input, output, if input.Some? && output.Some? then Some(AddI32(input.value, output.value)) else None)
  }

  /** The whole-body path: a `usage` member read by the type's rule; None
      sends `extract_usage` on to the line scan. */
  function WholeBodyUsage(json: Json, rule: UsageRule): (r: Option<Usage>)
    ensures r.Some? <==> Get(json, "usage").Some? && rule != NoUsageRule
  {
    match Get(json, "usage")
    case None => None
    case Some(usage) =>
      match rule
      case OpenAiRule => Some(OpenAiFields(usage))
      case AnthropicRule => Some(AnthropicWhole(usage))
      case NoUsageRule => None
  }

  /** What one line of the stream yields, if the scan stops at it: a line
      that starts with exactly `data: `, is not `[DONE]`, parses, has a
      `usage` member and passes the type's acceptance rule. */
  function FrameUsage(codec: Codec, line: string, rule: UsageRule): (r: Option<Usage>)
    ensures r.Some? ==> StartsWith(line, "data: ") && line[6..] != "[DONE]" && rule != NoUsageRule
    ensures r.Some? ==> r.value != NoUsage && InI32(r.value)
    ensures r.Some? && rule == AnthropicRule ==>
              r.value.prompt.Some? && (r.value.total.Some? <==> r.value.completion.Some?)
  {
    match StripPrefix(line, "data: ")
    case None => None
    case Some(jsonStr) =>
      if jsonStr == "[DONE]" then None
      else
        match codec.parseText(jsonStr)
        case None => None
        case Some(json) =>
          match Get(json, "usage")
          case None => None
          case Some(usage) =>
            match rule
            case OpenAiRule =>
              var u := OpenAiFields(usage);
              if u.prompt.Some? || u.completion.Some? || u.total.Some? then Some(u) else None
            case AnthropicRule =>
              var input := Token(usage, "input_tokens");
              var output := Token(usage, "output_tokens");
              if input.None? then None
              else Some(Usage(input, output, if output.Some? then Some(AddI32(input.value, output.value)) else None))
            case NoUsageRule => None
  }

  /** `FrameUsage` as a function of the line alone. */
  function FrameOf(codec: Codec, rule: UsageRule): string -> Option<Usage> {
    line => FrameUsage(codec, line, rule)
  }

  /** The reverse scan `for line in lines.rev()`: the first line from the end
      on which `frame` yields something. */
  function FindFromEnd(lines: seq<string>, frame: string -> Option<Usage>): (r: Option<Usage>)
    ensures r.None? <==> forall i :: 0 <= i < |lines| ==> frame(lines[i]).None?
    ensures r.Some? ==> exists i :: 0 <= i < |lines| && frame(lines[i]) == r
                                    && forall j :: i < j < |lines| ==> frame(lines[j]).None?
  {
    if |lines| == 0 then None
    else
      var last := lines[|lines| - 1];
      match frame(last)
      case Some(u) => Some(u)
      case None =>
        var r := FindFromEnd(lines[..|lines| - 1], frame);
        assert forall i :: 0 <= i < |lines| - 1 ==> lines[..|lines| - 1][i] == lines[i];
        r
  }

  /** `extract_usage`. */
  function ExtractUsage(codec: Codec, lossy: seq<byte> -> string, body: seq<byte>,
                        apiType: ApiType, embeddingsIsOpenAi: bool): Usage {
    var rule := UsageRuleOf(apiType, embeddingsIsOpenAi);
    var whole := match codec.parseBytes(body)
                 case Some(json) => WholeBodyUsage(json, rule)
                 case None => None;
    if whole.Some? then whole.value
    else FindFromEnd(RustLines(lossy(body)), FrameOf(codec, rule)).GetOr(NoUsage)
  }

  /** Every count `extract_usage` reports fits in an i32. */
  lemma ExtractUsageInI32(codec: Codec, lossy: seq<byte> -> string, body: seq<byte>,
                          apiType: ApiType, embeddingsIsOpenAi: bool)
    ensures InI32(ExtractUsage(codec, lossy, body, apiType, embeddingsIsOpenAi))
  {
    var rule := UsageRuleOf(apiType, embeddingsIsOpenAi);
    var found := FindFromEnd(RustLines(lossy(body)), FrameOf(codec, rule));
    if found.Some? {
      var lines := RustLines(lossy(body));
      var i :| 0 <= i < |lines| && FrameOf(codec, rule)(lines[i]) == found;
      assert FrameUsage(codec, lines[i], rule) == found;
    }
  }

  /** A whole JSON body with `usage` answers an OpenAI type with its three
      fields read independently, even when none is present, and no line is
      looked at. */
  lemma WholeBodyOpenAi(codec: Codec, lossy: seq<byte> -> string, body: seq<byte>, apiType: ApiType,
                        embeddingsIsOpenAi: bool, json: Json, usage: Json)
    requires codec.parseBytes(body) == Some(json) && Get(json, "usage") == Some(usage)
    requires UsageRuleOf(apiType, embeddingsIsOpenAi) == OpenAiRule
    ensures ExtractUsage(codec, lossy, body, apiType, embeddingsIsOpenAi)
            == Usage(Token(usage, "prompt_tokens"), Token(usage, "completion_tokens"), Token(usage, "total_tokens"))
  {
  }

  /** A whole JSON body with `usage` answers Anthropic with input and output,
      and a total exactly when both are present: their i32 sum, which is the
      plain sum when it fits. */
  lemma WholeBodyAnthropic(codec: Codec, lossy: seq<byte> -> string, body: seq<byte>,
                           embeddingsIsOpenAi: bool, json: Json, usage: Json)
    requires codec.parseBytes(body) == Some(json) && Get(json, "usage") == Some(usage)
    ensures var u := ExtractUsage(codec, lossy, body, AnthropicMessages, embeddingsIsOpenAi);
            && u.prompt == Token(usage, "input_tokens")
            && u.completion == Token(usage, "output_tokens")
            && (u.total.Some? <==> u.prompt.Some? && u.completion.Some?)
            && (u.total.Some? && I32Min <= u.prompt.value + u.completion.value <= I32Max
                ==> u.total.value == u.prompt.value + u.completion.value)
  {
  }

  /** The line scan runs exactly when the body is not JSON, has no `usage`,
      or belongs to a type without a whole-body rule. */
  lemma ScanFallback(codec: Codec, lossy: seq<byte> -> string, body: seq<byte>, apiType: ApiType,
                     embeddingsIsOpenAi: bool)
    requires codec.parseBytes(body).None? || Get(codec.parseBytes(body).value, "usage").None?
             || UsageRuleOf(apiType, embeddingsIsOpenAi) == NoUsageRule
    ensures ExtractUsage(codec, lossy, body, apiType, embeddingsIsOpenAi)
            == FindFromEnd(RustLines(lossy(body)), FrameOf(codec, UsageRuleOf(apiType, embeddingsIsOpenAi))).GetOr(NoUsage)
  {
  }

  /** The frame nearest the end that yields something decides the result;
      what comes before it does not matter. */
  lemma {:induction false} NearestFrameWins(lines: seq<string>, frame: string -> Option<Usage>, i: nat)
    requires i < |lines| && frame(lines[i]).Some?
    requires forall j :: i < j < |lines| ==> frame(lines[j]).None?
    ensures FindFromEnd(lines, frame) == frame(lines[i])
    decreases |lines|
  {
    if i < |lines| - 1 {
      var init := lines[..|lines| - 1];
      assert forall j :: i < j < |init| ==> init[j] == lines[j];
      NearestFrameWins(init, frame, i);
    }
  }

  /** Lines that do not start with exactly `data: ` (leading blanks, other
      field names, `data:` without the space), `[DONE]`, and `usage` objects
      with none of the OpenAI fields are passed over by the scan. */
  lemma FramesSkipped(codec: Codec, line: string, payload: string, json: Json, usage: Json)
    ensures !StartsWith(line, "data: ") ==>
              FrameUsage(codec, line, OpenAiRule).None? && FrameUsage(codec, line, AnthropicRule).None?
    ensures FrameUsage(codec, "data: [DONE]", OpenAiRule).None?
            && FrameUsage(codec, "data: [DONE]", AnthropicRule).None?
    ensures codec.parseText(payload) == Some(json) && Get(json, "usage") == Some(usage)
            && OpenAiFields(usage) == NoUsage
            ==> FrameUsage(codec, "data: " + payload, OpenAiRule).None?
  {
    assert ("data: " + payload)[..6] == "data: ";
    assert ("data: " + payload)[6..] == payload;
  }

  /** An accepted OpenAI frame reports its three fields; an Anthropic frame
      is accepted exactly when it has `input_tokens`, with the total present
      exactly when the output is. */
  lemma FrameAccepted(codec: Codec, payload: string, json: Json, usage: Json)
    requires payload != "[DONE]" && codec.parseText(payload) == Some(json) && Get(json, "usage") == Some(usage)
    ensures OpenAiFields(usage) != NoUsage
            ==> FrameUsage(codec, "data: " + payload, OpenAiRule) == Some(OpenAiFields(usage))
    ensures FrameUsage(codec, "data: " + payload, AnthropicRule).Some? <==> Token(usage, "input_tokens").Some?
    ensures FrameUsage(codec, "data: " + payload, AnthropicRule).Some? ==>
              var u := FrameUsage(codec, "data: " + payload, AnthropicRule).value;
              u.prompt == Token(usage, "input_tokens") && u.completion == Token(usage, "output_tokens")
              && (u.total.Some? <==> u.completion.Some?)
  {
    assert ("data: " + payload)[..6] == "data: ";
    assert ("data: " + payload)[6..] == payload;
  }

  /** Nothing matching gives `(None, None, None)`; the models listing never
      yields counts, and neither does embeddings in the older copy. */
  lemma NoRuleNoUsage(codec: Codec, lossy: seq<byte> -> string, body: seq<byte>, embeddingsIsOpenAi: bool)
    ensures ExtractUsage(codec, lossy, body, OpenAiModels, embeddingsIsOpenAi) == NoUsage
    ensures ExtractUsage(codec, lossy, body, OpenAiEmbeddings, false) == NoUsage
  {
    var lines := RustLines(lossy(body));
    assert forall i :: 0 <= i < |lines| ==> FrameOf(codec, NoUsageRule)(lines[i]).None?;
  }

  /** The two copies agree on every type but embeddings. */
  lemma CopiesAgree(codec: Codec, lossy: seq<byte> -> string, body: seq<byte>, apiType: ApiType)
    requires !apiType.OpenAiEmbeddings?
    ensures ExtractUsage(codec, lossy, body, apiType, true) == ExtractUsage(codec, lossy, body, apiType, false)
  {
    assert UsageRuleOf(apiType, true) == UsageRuleOf(apiType, false);
  }

  /** `elapsed_ms`: `i32::try_from(millis).unwrap_or(i32::MAX)`. */
  function ElapsedMs(millis: nat): (r: int)
    ensures 0 <= r <= I32Max
    ensures r == millis || (millis > I32Max && r == I32Max)
  {
    if millis <= I32Max then millis else I32Max
  }

  /** A longer elapsed time never reports a shorter latency. */
  lemma ElapsedMsMonotone(a: nat, b: nat)
    requires a <= b
    ensures ElapsedMs(a) <= ElapsedMs(b)
  {
  }

  /** The per-request fields the proxy carries through to the request log.
      The start instant is left out: `elapsedMillis` is the clock reading. */
  datatype RequestContext = RequestContext(
    requestId: Uuid, gatewayKeyId: Uuid, apiType: ApiType, model: string, alias: string,
    provider: string, endpoint: string, clientIp: Option<string>, userAgent: Option<string>,
    requestBody: seq<byte>)

  /** The request-log row handed to the database layer. */
  datatype RequestLogContext = RequestLogContext(
    requestId: Uuid, gatewayKeyId: Option<Uuid>, apiType: Option<ApiType>, model: Option<string>,
    alias: Option<string>, provider: Option<string>, endpoint: Option<string>,
    statusCode: Option<int>, latencyMs: Option<int>, clientIp: Option<string>,
    userAgent: Option<string>, requestBody: Option<seq<byte>>, responseBody: Option<seq<byte>>,
    requestContentType: Option<string>, responseContentType: Option<string>,
    usage: Usage)

  /** `RequestContext::build_log_context`. */
  function BuildLogContext(ctx: RequestContext, elapsedMillis: nat, statusCode: Option<int>,
                           responseBody: Option<seq<byte>>, responseContentType: Option<string>,
                           usage: Usage): (r: RequestLogContext)
    ensures r.requestId == ctx.requestId && r.gatewayKeyId == Some(ctx.gatewayKeyId)
    ensures r.apiType == Some(ctx.apiType) && r.model == Some(ctx.model) && r.alias == Some(ctx.alias)
    ensures r.provider == Some(ctx.provider) && r.endpoint == Some(ctx.endpoint)
    ensures r.clientIp == ctx.clientIp && r.userAgent == ctx.userAgent && r.requestBody == Some(ctx.requestBody)
    ensures r.statusCode == statusCode && r.responseBody == responseBody
    ensures r.responseContentType == responseContentType && r.usage == usage
    ensures r.requestContentType == Some("application/json")
    ensures r.latencyMs == Some(ElapsedMs(elapsedMillis))
    ensures r.latencyMs.Some? && 0 <= r.latencyMs.value <= I32Max
  {
    RequestLogContext(
      ctx.requestId, Some(ctx.gatewayKeyId), Some(ctx.apiType), Some(ctx.model), Some(ctx.alias),
      Some(ctx.provider), Some(ctx.endpoint), statusCode, Some(ElapsedMs(elapsedMillis)),
      ctx.clientIp, ctx.userAgent, Some(ctx.requestBody), responseBody,
      Some("application/json"), responseContentType, usage)
  }
}
