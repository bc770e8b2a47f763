/** The database enumerations and their string forms (backend/src/db/types.rs). */
module DbTypes {
  import opened Wrappers

  /** Row identifiers (UUIDs); only their equality matters here. */
  type Uuid = nat

  /** The wire-protocol family of an endpoint. db/types.rs declares the first
      three; the middleware and services also name OpenAiModels and
      OpenAiEmbeddings, so the model keeps all five. */
  datatype ApiType =
    | OpenAiChatCompletions
    | OpenAiResponses
    | AnthropicMessages
    | OpenAiModels
    | OpenAiEmbeddings
  {
    /** The variants db/types.rs gives a string form. */
    predicate Declared() {
      OpenAiChatCompletions? || OpenAiResponses? || AnthropicMessages?
    }
  }

  /** `Display for ApiType`. */
  function ApiTypeName(t: ApiType): (s: string)
    requires t.Declared()
    ensures s in {"openai_chat_completions", "openai_responses", "anthropic_messages"}
  {
    match t
    case OpenAiChatCompletions => "openai_chat_completions"
    case OpenAiResponses => "openai_responses"
    case AnthropicMessages => "anthropic_messages"
  }

  /** `FromStr for ApiType`: exactly the three display strings are accepted
      (case-sensitively), and printing what was parsed gives the input back. */
  function ParseApiType(s: string): (r: Result<ApiType, string>)
    ensures r.Success? <==> s in {"openai_chat_completions", "openai_responses", "anthropic_messages"}
    ensures r.Success? ==> r.value.Declared() && ApiTypeName(r.value) == s
    ensures r.Failure? ==> r.error == "unknown api_type: " + s
  {
    match s
    case "openai_chat_completions" => Success(OpenAiChatCompletions)
    case "openai_responses" => Success(OpenAiResponses)
    case "anthropic_messages" => Success(AnthropicMessages)
    case _ => Failure("unknown api_type: " + s)
  }

  /** Parsing the display string of a declared variant gives the variant back,
      and display strings are pairwise distinct. */
  lemma ApiTypeRoundTrip(t: ApiType, u: ApiType)
    requires t.Declared() && u.Declared()
    ensures ParseApiType(ApiTypeName(t)) == Success(t)
    ensures ApiTypeName(t) == ApiTypeName(u) ==> t == u
  {
  }

  /** The load-balancing strategy of an alias. */
  datatype LbStrategy = WeightedRoundRobin | RoundRobin | Priority

  /** `Display for LbStrategy`. */
  function LbStrategyName(l: LbStrategy): (s: string)
    ensures s in {"weighted_round_robin", "round_robin", "priority"}
  {
    match l
    case WeightedRoundRobin => "weighted_round_robin"
    case RoundRobin => "round_robin"
    case Priority => "priority"
  }

  /** `FromStr for LbStrategy`. */
  function ParseLbStrategy(s: string): (r: Result<LbStrategy, string>)
    ensures r.Success? <==> s in {"weighted_round_robin", "round_robin", "priority"}
    ensures r.Success? ==> LbStrategyName(r.value) == s
    ensures r.Failure? ==> r.error == "unknown lb_strategy: " + s
  {
    match s
    case "weighted_round_robin" => Success(WeightedRoundRobin)
    case "round_robin" => Success(RoundRobin)
    case "priority" => Success(Priority)
    case _ => Failure("unknown lb_strategy: " + s)
  }

  lemma LbStrategyRoundTrip(l: LbStrategy, m: LbStrategy)
    ensures ParseLbStrategy(LbStrategyName(l)) == Success(l)
    ensures LbStrategyName(l) == LbStrategyName(m) ==> l == m
  {
  }
}
