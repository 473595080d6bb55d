/**
 * The state dict every node of the chat graph reads and returns
 * (`app/graph/chat/state.py`). A key the code reads with a default
 * (`state.get("warnings", [])`) is a plain field holding that default when
 * absent; a key whose absence the code tests is an `Option`.
 */
module ChatGraphState {
  import opened Wrappers
  import opened Itinerary
  import opened ChatSchema

  /** The classifier's `intent_type`. */
  datatype IntentType = GeneralChatIntent | Modification

  /**
   * `ChatState`. `currentItinerary`/`modifiedItinerary` are None when absent,
   * None or an empty dict (Python's falsy values); `userQuery` is "" when
   * absent; `error` is None when absent or None (every error the nodes set is
   * a non-empty text). `visitTimeProposals` is the undeclared
   * `visit_time_proposals` key (day number to visit sequence to `HH:MM`),
   * empty when absent.
   */
  datatype ChatState = ChatState(
    currentItinerary: Option<Roadmap>,
    userQuery: string,
    intentType: Option<IntentType>,
    intent: Option<ChatIntent>,
    searchResults: seq<Candidate>,
    warnings: seq<string>,
    modifiedItinerary: Option<Roadmap>,
    status: Option<ChatStatus>,
    changeSummary: string,
    message: string,
    diffKeys: seq<string>,
    suggestedKeyword: Option<string>,
    error: Option<string>,
    visitTimeProposals: map<int, map<int, string>>)

  /** Python's `if state.get("error")`. */
  predicate HasError(s: ChatState) { s.error.Some? && |s.error.value| > 0 }
}
