/**
 * The state the roadmap graph passes from node to node
 * (`app/graph/roadmap/state.py`). Every key of the `total=False` TypedDict
 * is optional, so every field is an `Option`.
 */
module RoadmapGraphState {
  import opened Wrappers
  import opened Itinerary
  import CourseSchema
  import RoadmapUtils

  /** `RoadmapDayPlan`, and the parsed `DayPlan` of a skeleton reply. */
  datatype PlanDay = PlanDay(dayNumber: int, region: string, slots: seq<RoadmapUtils.Slot>)

  /**
   * What the summary LLM adds to the final roadmap. `CourseResponseLLMOutput`
   * is not part of this model; its fields are the ones its prompt asks for.
   */
  datatype LlmSummary = LlmSummary(title: string, summary: string, tags: seq<string>,
                                   llmCommentary: string, nextActionSuggestion: seq<string>)

  /** The `final_roadmap` dict; the dates are their ISO texts. */
  datatype FinalRoadmap = FinalRoadmap(
    startDate: string,
    endDate: string,
    tripDays: int,
    nights: int,
    peopleCount: int,
    summary: LlmSummary,
    itinerary: seq<Day>)

  /** `RoadmapState`. */
  datatype RoadmapState = RoadmapState(
    courseRequest: Option<CourseSchema.RawCourseRequest>,
    tripDays: Option<int>,
    slotMin: Option<int>,
    slotMax: Option<int>,
    skeletonPlan: Option<seq<PlanDay>>,
    skeletonWarnings: Option<seq<string>>,
    fetchedPlaces: Option<map<string, seq<Candidate>>>,
    finalRoadmap: Option<FinalRoadmap>,
    error: Option<string>)

  /** `state.get("error")` is truthy. */
  predicate HasError(s: RoadmapState)
  {
    s.error.Some? && |s.error.value| > 0
  }
}
