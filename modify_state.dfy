/**
 * The state dict of the older itinerary edit graph (`app/graph/modify/`).
 * Its declaration, `app/graph/modify/state.py`, is not part of this model:
 * the fields are the keys the edit and cascade nodes read and write.
 */
module ModifyGraphState {
  import opened Wrappers
  import opened Itinerary
  import opened ChatSchema

  /**
   * The `intent` dict. `op` ranges over `ModifyOperation`, whose members are
   * those of `ChatOperation`. `destinationDay`/`destinationIndex` are None
   * when the key is absent; the dict `ModifyIntent.model_dump()` produces
   * carries neither key (app/schemas/modify.py:40-48).
   */
  datatype ModifyIntent = ModifyIntent(
    op: ChatOperation,
    targetDay: int,
    targetIndex: int,
    searchKeyword: Option<string>,
    destinationDay: Option<int>,
    destinationIndex: Option<int>)

  /** `ModifyState`; `status` ranges over `ModifyStatus`, whose members are those of `ChatStatus`. */
  datatype ModifyState = ModifyState(
    currentItinerary: Option<Roadmap>,
    intent: Option<ModifyIntent>,
    searchResults: seq<Candidate>,
    warnings: seq<string>,
    modifiedItinerary: Option<Roadmap>,
    status: Option<ChatStatus>,
    changeSummary: string,
    diffKeys: seq<string>,
    suggestedKeyword: Option<string>,
    error: Option<string>)
}
