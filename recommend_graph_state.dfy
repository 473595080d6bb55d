/**
 * The state of the region-recommendation graph (`app/graph/state.py`): the
 * user's preferences, the vector-search candidates, the reranked regions and
 * the final recommendations. Every key of the `total=False` dicts is
 * optional, so those fields are `Option`s. The recommendation nodes import
 * the same names from `app/graph/recommendation/state.py`, which is not part
 * of this model; its dicts are taken to be these.
 */
module RecommendGraphState {
  import opened Wrappers

  /**
   * `UserPreference`: the codes the user picked. A field is `None` when the
   * key is missing or holds `None`.
   */
  datatype UserPreference = UserPreference(
    travelRange: Option<string>,
    budgetLevel: Option<string>,
    mainInterests: Option<seq<string>>,
    environment: Option<string>,
    weather: Option<string>)

  /** The preference `state.get("user_preference", {})` yields without the key. */
  const NoPreference: UserPreference := UserPreference(None, None, None, None, None)

  /** `RegionCandidate`: a region found by vector search; the UUID is kept as its text. */
  datatype RegionCandidate = RegionCandidate(regionId: Option<string>, regionName: string, score: real)

  /** `RankedRegion`. */
  datatype RankedRegion = RankedRegion(
    regionId: Option<string>,
    regionName: string,
    score: real,
    reason: string,
    constraintsMet: bool)

  /** `GraphState`. */
  datatype GraphState = GraphState(
    userPreference: Option<UserPreference>,
    topK: Option<int>,
    transformedQuery: Option<string>,
    candidates: Option<seq<RegionCandidate>>,
    rankedRegions: Option<seq<RankedRegion>>,
    finalRecommendations: Option<seq<RankedRegion>>,
    error: Option<string>)

  function PreferenceOf(s: GraphState): UserPreference
  {
    s.userPreference.GetOr(NoPreference)
  }
}
