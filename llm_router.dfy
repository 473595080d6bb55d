/**
 * Stage-based model routing (`app/core/llm_router.py`): each call site
 * names a stage, the stage picks a tier and, when routing is enabled, the
 * tier's model; a failure of a routed model is retried once with the
 * fallback model. The chat client is an oracle from the client's settings
 * to a reply, `None` standing for a raised exception. `invoke` and
 * `ainvoke` run the same logic and are modelled once.
 */
module LlmRouter {
  import opened Wrappers
  import opened PyText
  import TimeoutPolicy

  datatype Tier = Quality | Speed | Cost

  datatype Stage =
    | ChatIntentRouting | ChatIntentStructuring | ChatKeywordAssist | ChatPlaceRerank | ChatResponse
    | ChatVisitTime | RoadmapSkeleton | RoadmapPlaceRerank | RoadmapPlaceDetail | RoadmapSummary
    | RecommendSelection

  /** `stage_to_tier`: `_STAGE_TIER_MAP`, which has an entry for every stage. */
  function StageToTier(stage: Stage): Tier
  {
    match stage
    case ChatIntentRouting => Speed
    case ChatIntentStructuring => Quality
    case ChatKeywordAssist => Cost
    case ChatPlaceRerank => Cost
    case ChatResponse => Speed
    case ChatVisitTime => Speed
    case RoadmapSkeleton => Quality
    case RoadmapPlaceRerank => Cost
    case RoadmapPlaceDetail => Speed
    case RoadmapSummary => Quality
    case RecommendSelection => Cost
  }

  /** The quality tier serves intent structuring and the roadmap's skeleton and summary, and nothing else. */
  lemma QualityStages(stage: Stage)
    ensures StageToTier(stage) == Quality <==> stage in {ChatIntentStructuring, RoadmapSkeleton, RoadmapSummary}
  {
  }

  /** The settings the router reads. */
  datatype RouterSettings = RouterSettings(
    modelName: string, routingEnabled: bool,
    qualityModel: string, speedModel: string, costModel: string,
    apiKey: string, timeouts: TimeoutPolicy.TimeoutSettings)

  /** `_tier_model_name`: the tier's configured model, stripped. */
  function TierModelName(tier: Tier, s: RouterSettings): string
  {
    match tier
    case Quality => Strip(s.qualityModel)
    case Speed => Strip(s.speedModel)
    case Cost => Strip(s.costModel)
  }

  datatype Resolution = Resolution(model: string, tier: Option<Tier>, routingEnabled: bool)

  /**
   * `resolve_model`: the stripped `LLM_MODEL_NAME` without a tier when routing
   * is off; else the stage's tier model, or the fallback when that is blank.
   */
  function ResolveModel(stage: Stage, s: RouterSettings): (r: Resolution)
    ensures !s.routingEnabled ==> r == Resolution(Strip(s.modelName), None, false)
    ensures s.routingEnabled ==> r.tier == Some(StageToTier(stage)) && r.routingEnabled
    ensures s.routingEnabled && |TierModelName(StageToTier(stage), s)| > 0 ==> r.model == TierModelName(StageToTier(stage), s)
    ensures s.routingEnabled && |TierModelName(StageToTier(stage), s)| == 0 ==> r.model == Strip(s.modelName)
  {
    var fallback := Strip(s.modelName);
    if !s.routingEnabled then Resolution(fallback, None, false)
    else
      var tier := StageToTier(stage);
      var tierModel := TierModelName(tier, s);
      Resolution(if |tierModel| > 0 then tierModel else fallback, Some(tier), true)
  }

  /** `_resolve_timeout_seconds`: the policy's LLM timeout by default, else at least one second. */
  function ResolveTimeout(timeoutSeconds: Option<int>, s: RouterSettings): (r: int)
    ensures r >= 1
    ensures timeoutSeconds.None? ==> r == TimeoutPolicy.BuildTimeoutPolicy(s.timeouts).llmTimeout
    ensures timeoutSeconds.Some? ==> r == Max(1, timeoutSeconds.value)
  {
    if timeoutSeconds.None? then TimeoutPolicy.BuildTimeoutPolicy(s.timeouts).llmTimeout else Max(1, timeoutSeconds.value)
  }

  /** `_resolve_temperature`: 0.0 by default. */
  function ResolveTemperature(temperature: Option<real>): real
  {
    temperature.GetOr(0.0)
  }

  /** The arguments a chat client is built from. */
  datatype Client = Client(model: string, temperature: real, timeoutSeconds: int, apiKey: string)

  /** The reply of a call, or `None` for the exception it re-raises, and the clients it called, in order. */
  datatype Invocation = Invocation(reply: Option<string>, calls: seq<Client>)

  /**
   * `invoke`: one call to the selected model; on its failure a routed,
   * non-fallback model gets exactly one more call, with the fallback model,
   * and every other failure is re-raised.
   */
  function Invoke(stage: Stage, s: RouterSettings, timeoutSeconds: Option<int>, temperature: Option<real>,
                  call: Client -> Option<string>): (r: Invocation)
    ensures 1 <= |r.calls| <= 2
    ensures r.calls[0].model == ResolveModel(stage, s).model
  {
    var timeout := ResolveTimeout(timeoutSeconds, s);
    var temp := ResolveTemperature(temperature);
    var resolved := ResolveModel(stage, s);
    var fallbackModel := Strip(s.modelName);
    var first := Client(resolved.model, temp, timeout, s.apiKey);
    var reply := call(first);
    if reply.Some? then Invocation(reply, [first])
    else if !resolved.routingEnabled || resolved.model == fallbackModel then Invocation(None, [first])
    else
      var second := Client(fallbackModel, temp, timeout, s.apiKey);
      Invocation(call(second), [first, second])
  }

  /**
   * The fallback is tried exactly when the first call failed with routing on
   * and a model other than the fallback; it then gives the reply. Otherwise
   * the first call's reply, or its exception, is the outcome.
   */
  lemma InvokeFallback(stage: Stage, s: RouterSettings, timeoutSeconds: Option<int>, temperature: Option<real>,
                       call: Client -> Option<string>)
    ensures var r := Invoke(stage, s, timeoutSeconds, temperature, call);
      var first := r.calls[0];
      (|r.calls| == 2 <==> call(first).None? && s.routingEnabled && ResolveModel(stage, s).model != Strip(s.modelName))
      && (|r.calls| == 1 ==> r.reply == call(first))
      && (|r.calls| == 2 ==> r.calls[1] == first.(model := Strip(s.modelName)) && r.reply == call(r.calls[1]))
  {
  }

  /** With routing off every call uses `LLM_MODEL_NAME` and a failure is never retried. */
  lemma NoRoutingNoRetry(stage: Stage, s: RouterSettings, timeoutSeconds: Option<int>, temperature: Option<real>,
                         call: Client -> Option<string>)
    requires !s.routingEnabled
    ensures var r := Invoke(stage, s, timeoutSeconds, temperature, call);
      |r.calls| == 1 && r.calls[0].model == Strip(s.modelName) && r.reply == call(r.calls[0])
  {
  }

  /** Every client is built with a timeout of at least one second and the resolved temperature. */
  lemma ClientsTimeout(stage: Stage, s: RouterSettings, timeoutSeconds: Option<int>, temperature: Option<real>,
                       call: Client -> Option<string>, k: nat)
    requires k < |Invoke(stage, s, timeoutSeconds, temperature, call).calls|
    ensures var c := Invoke(stage, s, timeoutSeconds, temperature, call).calls[k];
      c.timeoutSeconds == ResolveTimeout(timeoutSeconds, s) >= 1 && c.temperature == temperature.GetOr(0.0) && c.apiKey == s.apiKey
  {
  }
}
