/** Route resolution for a requested model (backend/src/services/routing.rs):
    the gateway key's model whitelist, a direct `brief:model` target, the
    alias fallback, and the choice of the first target and the first
    provider key. The database queries are given as functions. */
module Routing {
  import opened Wrappers
  import opened Text
  import opened DbTypes
  import opened AppErrors

  /** `parse_provider_real_model`: the text before the first `:` is the
      provider's brief, the rest the provider's own model name; both are
      trimmed and must be non-empty. */
  function ParseProviderRealModel(model: string): (r: Option<(string, string)>)
    ensures ':' !in model ==> r.None?
    ensures r.Some? ==> r.value.0 != "" && r.value.1 != ""
    ensures r.Some? ==> SplitOnce(model, ':').Some?
                        && r.value == (RustTrim(SplitOnce(model, ':').value.0), RustTrim(SplitOnce(model, ':').value.1))
  {
    match SplitOnce(model, ':')
    case None => None
    case Some((brief, realModel)) =>
      var b := RustTrim(brief);
      var m := RustTrim(realModel);
      if b == "" || m == "" then None else Some((b, m))
  }

  /** A brief without `:` and a model name (which may contain `:`) come back
      trimmed, or not at all when either trims to nothing. */
  lemma ParseOfJoined(brief: string, realModel: string)
    requires ':' !in brief
    ensures ParseProviderRealModel(brief + ":" + realModel)
            == if RustTrim(brief) == "" || RustTrim(realModel) == "" then None
               else Some((RustTrim(brief), RustTrim(realModel)))
  {
    SplitOnceOf(brief, ':', realModel);
  }

  /** Writing a trimmed, non-empty brief and model as `brief:model` and
      parsing it gives them back. */
  lemma ParseRoundTrip(brief: string, realModel: string)
    requires ':' !in brief && brief != "" && realModel != ""
    requires !IsRustSpace(brief[0]) && !IsRustSpace(brief[|brief| - 1])
    requires !IsRustSpace(realModel[0]) && !IsRustSpace(realModel[|realModel| - 1])
    ensures ParseProviderRealModel(brief + ":" + realModel) == Some((brief, realModel))
  {
    ParseOfJoined(brief, realModel);
    TrimOfTrimmed(brief, IsRustSpace);
    TrimOfTrimmed(realModel, IsRustSpace);
  }

  /** The rule of `enforce_model_whitelist`: an empty list allows everything,
      otherwise only an exact member. */
  predicate WhitelistAllows(whitelist: seq<string>, model: string) {
    |whitelist| == 0 || model in whitelist
  }

  /** `enforce_model_whitelist`: the error it returns, if any. */
  function EnforceWhitelist(whitelist: Result<seq<string>, AppError>, model: string): (r: Option<AppError>)
    ensures whitelist.Failure? ==> r == Some(whitelist.error)
    ensures whitelist.Success? ==>
              (r.None? <==> WhitelistAllows(whitelist.value, model))
              && (r.Some? ==> r.value == Forbidden("model not in whitelist"))
  {
    match whitelist
    case Failure(e) => Some(e)
    case Success(list) =>
      if |list| == 0 then None
      else if exists i :: 0 <= i < |list| && list[i] == model then None
      else Some(Forbidden("model not in whitelist"))
  }

  datatype Provider = Provider(id: Uuid, name: string)

  datatype Endpoint = Endpoint(id: Uuid, url: string, apiType: ApiType, enabled: bool)

  /** An alias target with its provider and endpoint joined in. */
  datatype AliasTarget = AliasTarget(
    aliasTargetId: Uuid, providerId: Uuid, providerName: string,
    endpointUrl: Option<string>, modelId: string)

  datatype ProviderKey = ProviderKey(id: Uuid, apiKey: string)

  datatype Route = Route(
    providerId: Uuid, providerName: string, endpointUrl: string, modelId: string,
    providerKey: ProviderKey, aliasName: string)

  /** The queries `resolve_route` makes. Target and key lists come back in
      the database's order (by usage count). */
  datatype RoutingDb = RoutingDb(
    modelWhitelist: Uuid -> Result<seq<string>, AppError>,
    providerByBrief: string -> Result<Option<Provider>, AppError>,
    endpointsOf: Uuid -> Result<seq<Endpoint>, AppError>,
    aliasTargets: (string, ApiType) -> Result<seq<AliasTarget>, AppError>,
    incrementAliasTarget: Uuid -> Result<(), AppError>,
    providerKeys: Uuid -> Result<seq<ProviderKey>, AppError>)

  predicate Serves(e: Endpoint, apiType: ApiType) {
    e.apiType == apiType && e.enabled
  }

  /** `endpoints.into_iter().find(|e| e.api_type == api_type && e.enabled)`. */
  function FindEndpoint(endpoints: seq<Endpoint>, apiType: ApiType): (r: Option<Endpoint>)
    ensures r.None? <==> forall i :: 0 <= i < |endpoints| ==> !Serves(endpoints[i], apiType)
    ensures r.Some? ==> exists i :: 0 <= i < |endpoints| && endpoints[i] == r.value && Serves(r.value, apiType)
                                    && forall j :: 0 <= j < i ==> !Serves(endpoints[j], apiType)
  {
    if |endpoints| == 0 then None
    else if Serves(endpoints[0], apiType) then Some(endpoints[0])
    else
      var r := FindEndpoint(endpoints[1..], apiType);
      assert forall i :: 1 <= i < |endpoints| ==> endpoints[i] == endpoints[1..][i - 1];
      r
  }

  /** The direct target of a `brief:model` name: the provider with that
      brief, its first enabled endpoint of the requested type, and the model
      after the `:`. A failed provider query counts as no provider and a
      failed endpoint query as no endpoints. The synthetic target's id is
      fresh and never read. */
  function BriefTargets(db: RoutingDb, model: string, apiType: ApiType): (r: seq<AliasTarget>)
    ensures |r| <= 1
    ensures |r| == 1 ==>
              && ParseProviderRealModel(model).Some?
              && db.providerByBrief(ParseProviderRealModel(model).value.0).Success?
              && db.providerByBrief(ParseProviderRealModel(model).value.0).value.Some?
              && var p := db.providerByBrief(ParseProviderRealModel(model).value.0).value.value;
                 && db.endpointsOf(p.id).Success?
                 && FindEndpoint(db.endpointsOf(p.id).value, apiType).Some?
                 && r[0] == AliasTarget(0, p.id, p.name,
                                        Some(FindEndpoint(db.endpointsOf(p.id).value, apiType).value.url),
                                        ParseProviderRealModel(model).value.1)
  {
    match ParseProviderRealModel(model)
    case None => []
    case Some((brief, realModel)) =>
      match db.providerByBrief(brief)
      case Success(Some(provider)) =>
        var endpoints := match db.endpointsOf(provider.id)
                         case Success(list) => list
                         case Failure(_) => [];
        (match FindEndpoint(endpoints, apiType)
         case Some(endpoint) => [AliasTarget(0, provider.id, provider.name, Some(endpoint.url), realModel)]
         case None => [])
      case _ => []
  }

  /** What `resolve_route` returns, and the alias target whose usage counter
      it attempts to increment (None when it attempts none); the attempt is
      reported even when the increment query fails. */
  datatype RouteOutcome = RouteOutcome(result: Result<Route, AppError>, bumped: Option<Uuid>)

  /** The route from a target list: first target, first key, required url. */
  function RouteFrom(db: RoutingDb, model: string, targets: seq<AliasTarget>, isAliasMatch: bool): RouteOutcome {
    if |targets| == 0 then RouteOutcome(Failure(BadRequest("unknown model alias: " + model)), None)
    else
      var target := targets[0];
      var bumped := if isAliasMatch then Some(target.aliasTargetId) else None;
      var increment := if isAliasMatch then db.incrementAliasTarget(target.aliasTargetId) else Success(());
      if increment.Failure? then RouteOutcome(Failure(increment.error), bumped)
      else
        match db.providerKeys(target.providerId)
        case Failure(e) => RouteOutcome(Failure(e), bumped)
        case Success(keys) =>
          if |keys| == 0 then RouteOutcome(Failure(Internal("no provider keys available")), bumped)
          else if target.endpointUrl.None? then
            RouteOutcome(Failure(Internal("no endpoint url found for target provider")), bumped)
          else
            RouteOutcome(Success(Route(target.providerId, target.providerName, target.endpointUrl.value,
                                       target.modelId, keys[0], model)), bumped)
  }

  /** `resolve_route`, as a specification. */
  function ResolvedRoute(db: RoutingDb, gatewayKeyId: Uuid, model: string, apiType: ApiType): RouteOutcome {
    match EnforceWhitelist(db.modelWhitelist(gatewayKeyId), model)
    case Some(e) => RouteOutcome(Failure(e), None)
    case None =>
      var brief := BriefTargets(db, model, apiType);
      if |brief| > 0 then RouteFrom(db, model, brief, false)
      else
        match db.aliasTargets(model, apiType)
        case Failure(e) => RouteOutcome(Failure(e), None)
        case Success(targets) => RouteFrom(db, model, targets, true)
  }

  /** The tail of `resolve_route`: the first target, its usage counter when
      it came from the alias table, the first provider key, and the url. */
  method RouteFromTargets(db: RoutingDb, model: string, targets: seq<AliasTarget>, isAliasMatch: bool)
    returns (r: Result<Route, AppError>, bumped: Option<Uuid>)
    ensures RouteOutcome(r, bumped) == RouteFrom(db, model, targets, isAliasMatch)
  {
    if |targets| == 0 {
      return Failure(BadRequest("unknown model alias: " + model)), None;
    }
    var target := targets[0];
    bumped := None;
    if isAliasMatch {
      bumped := Some(target.aliasTargetId);
      var increment := db.incrementAliasTarget(target.aliasTargetId);
      if increment.Failure? {
        return Failure(increment.error), bumped;
      }
    }
    var keys := db.providerKeys(target.providerId);
    if keys.Failure? {
      return Failure(keys.error), bumped;
    }
    if |keys.value| == 0 {
      return Failure(Internal("no provider keys available")), bumped;
    }
    var providerKey := keys.value[0];
    if target.endpointUrl.None? {
      return Failure(Internal("no endpoint url found for target provider")), bumped;
    }
    r := Success(Route(target.providerId, target.providerName, target.endpointUrl.value,
                       target.modelId, providerKey, model));
  }

  /** `resolve_route`: the local target list and alias flag are reassigned
      as the source does. */
  method ResolveRoute(db: RoutingDb, gatewayKeyId: Uuid, model: string, apiType: ApiType)
    returns (r: Result<Route, AppError>, bumped: Option<Uuid>)
    ensures RouteOutcome(r, bumped) == ResolvedRoute(db, gatewayKeyId, model, apiType)
  {
    var denied := EnforceWhitelist(db.modelWhitelist(gatewayKeyId), model);
    if denied.Some? {
      return Failure(denied.value), None;
    }
    var targets: seq<AliasTarget> := [];
    var isAliasMatch := false;
    targets := BriefTargets(db, model, apiType);
    if |targets| == 0 {
      var fetched := db.aliasTargets(model, apiType);
      if fetched.Failure? {
        return Failure(fetched.error), None;
      }
      targets := fetched.value;
      isAliasMatch := true;
    }
    r, bumped := RouteFromTargets(db, model, targets, isAliasMatch);
  }

  /** The whitelist is checked before any target is looked up: a model it
      refuses is Forbidden whatever the database holds, and nothing is
      incremented. */
  lemma WhitelistFirst(db: RoutingDb, gatewayKeyId: Uuid, model: string, apiType: ApiType)
    requires db.modelWhitelist(gatewayKeyId).Success?
    requires !WhitelistAllows(db.modelWhitelist(gatewayKeyId).value, model)
    ensures ResolvedRoute(db, gatewayKeyId, model, apiType)
            == RouteOutcome(Failure(Forbidden("model not in whitelist")), None)
  {
  }

  /** A direct `brief:model` target is used when the provider exists and has
      an enabled endpoint of the type: the route carries the model after the
      `:`, the requested name as alias, the first key, and the alias table is
      neither read nor incremented. */
  lemma BriefRoute(db: RoutingDb, gatewayKeyId: Uuid, model: string, apiType: ApiType,
                   provider: Provider, endpoint: Endpoint, keys: seq<ProviderKey>)
    requires EnforceWhitelist(db.modelWhitelist(gatewayKeyId), model).None?
    requires ParseProviderRealModel(model).Some?
    requires db.providerByBrief(ParseProviderRealModel(model).value.0) == Success(Some(provider))
    requires db.endpointsOf(provider.id).Success?
    requires FindEndpoint(db.endpointsOf(provider.id).value, apiType) == Some(endpoint)
    requires db.providerKeys(provider.id) == Success(keys) && |keys| > 0
    ensures ResolvedRoute(db, gatewayKeyId, model, apiType)
            == RouteOutcome(Success(Route(provider.id, provider.name, endpoint.url,
                                          ParseProviderRealModel(model).value.1, keys[0], model)), None)
  {
  }

  /** Without a direct target the alias's first target is used, and only
      then is that target's usage counter incremented. */
  lemma AliasRoute(db: RoutingDb, gatewayKeyId: Uuid, model: string, apiType: ApiType,
                   targets: seq<AliasTarget>, keys: seq<ProviderKey>)
    requires EnforceWhitelist(db.modelWhitelist(gatewayKeyId), model).None?
    requires BriefTargets(db, model, apiType) == []
    requires db.aliasTargets(model, apiType) == Success(targets) && |targets| > 0
    requires db.incrementAliasTarget(targets[0].aliasTargetId).Success?
    requires db.providerKeys(targets[0].providerId) == Success(keys) && |keys| > 0
    requires targets[0].endpointUrl.Some?
    ensures ResolvedRoute(db, gatewayKeyId, model, apiType)
            == RouteOutcome(Success(Route(targets[0].providerId, targets[0].providerName,
                                          targets[0].endpointUrl.value, targets[0].modelId, keys[0], model)),
                            Some(targets[0].aliasTargetId))
  {
  }

  /** A name with neither a direct target nor alias targets is an unknown
      alias; a target without keys or without an endpoint url is an internal
      error. */
  lemma RouteErrors(db: RoutingDb, gatewayKeyId: Uuid, model: string, apiType: ApiType)
    requires EnforceWhitelist(db.modelWhitelist(gatewayKeyId), model).None?
    requires BriefTargets(db, model, apiType) == []
    ensures db.aliasTargets(model, apiType) == Success([]) ==>
              ResolvedRoute(db, gatewayKeyId, model, apiType).result
              == Failure(BadRequest("unknown model alias: " + model))
    ensures db.aliasTargets(model, apiType).Success? && |db.aliasTargets(model, apiType).value| > 0
            && (var t := db.aliasTargets(model, apiType).value[0];
                db.incrementAliasTarget(t.aliasTargetId).Success? && db.providerKeys(t.providerId) == Success([]))
            ==> ResolvedRoute(db, gatewayKeyId, model, apiType).result
                == Failure(Internal("no provider keys available"))
  {
  }

  lemma RouteFromInvariants(db: RoutingDb, model: string, targets: seq<AliasTarget>, isAliasMatch: bool)
    ensures var o := RouteFrom(db, model, targets, isAliasMatch);
            && (o.result.Success? ==> o.result.value.aliasName == model)
            && (o.bumped.Some? ==> isAliasMatch)
  {
  }

  /** Every route names the requested model as its alias, and a usage counter
      is incremented only for an alias target, never for a direct one. */
  lemma RouteInvariants(db: RoutingDb, gatewayKeyId: Uuid, model: string, apiType: ApiType)
    ensures var o := ResolvedRoute(db, gatewayKeyId, model, apiType);
            && (o.result.Success? ==> o.result.value.aliasName == model)
            && (o.bumped.Some? ==> BriefTargets(db, model, apiType) == []
                                   && EnforceWhitelist(db.modelWhitelist(gatewayKeyId), model).None?)
  {
    if EnforceWhitelist(db.modelWhitelist(gatewayKeyId), model).None? {
      var brief := BriefTargets(db, model, apiType);
      if |brief| > 0 {
        RouteFromInvariants(db, model, brief, false);
      } else if db.aliasTargets(model, apiType).Success? {
        RouteFromInvariants(db, model, db.aliasTargets(model, apiType).value, true);
      }
    }
  }
}
