/**
 * The request and response models of the itinerary chat (`app/schemas/chat.py`)
 * and the enumerations it imports: the edit operation, the chat status, and
 * the extracted edit intent with its field bounds and the MOVE destination
 * validator.
 */
module ChatSchema {
  import opened Wrappers
  import opened Itinerary

  /** `ChatOperation`: the four edits the mutation node applies. */
  datatype ChatOperation = Replace | Add | Remove | Move

  /** `ChatStatus`. */
  datatype ChatStatus = Success | Rejected | AskClarification | GeneralChat

  /**
   * `ChatIntent` (and, with the same fields, the looser `ChatIntentDraft`):
   * the edit the LLM extracted from the user's request.
   */
  datatype ChatIntent = ChatIntent(
    op: ChatOperation,
    targetDay: int,
    targetIndex: int,
    destinationDay: Option<int>,
    destinationIndex: Option<int>,
    searchKeyword: Option<string>,
    reasoning: string,
    isCompound: bool,
    needsClarification: bool)

  /** The `ge=1` field constraints: positions are 1-based, absent destinations allowed. */
  predicate FieldBounds(i: ChatIntent)
  {
    i.targetDay >= 1 && i.targetIndex >= 1
    && (i.destinationDay.Some? ==> i.destinationDay.value >= 1)
    && (i.destinationIndex.Some? ==> i.destinationIndex.value >= 1)
  }

  /**
   * `validate_move_destination`: None when the intent passes, or the
   * `ValueError` message.
   */
  function ValidateMoveDestination(i: ChatIntent): (err: Option<string>)
    ensures err.None? <==> (i.needsClarification || !i.op.Move?
                            || (i.destinationDay.Some? && i.destinationIndex.Some?))
  {
    if i.needsClarification then None
    else if i.op.Move? && (i.destinationDay.None? || i.destinationIndex.None?) then
      Some("MOVE 시 destination_day와 destination_index가 필요합니다.")
    else None
  }

  /** `ChatIntent.model_validate` succeeds. */
  predicate ValidIntent(i: ChatIntent)
  {
    FieldBounds(i) && ValidateMoveDestination(i).None?
  }

  /** A valid MOVE that needs no clarification names its whole destination, and the destination is 1-based. */
  lemma ValidMoveHasDestination(i: ChatIntent)
    requires ValidIntent(i) && i.op.Move? && !i.needsClarification
    ensures i.destinationDay.Some? && i.destinationDay.value >= 1
    ensures i.destinationIndex.Some? && i.destinationIndex.value >= 1
  {
  }

  /** Under `needs_clarification`, and for every operation but MOVE, the validator never objects. */
  lemma ValidatorOnlyGuardsMove(i: ChatIntent)
    requires i.needsClarification || !i.op.Move?
    ensures FieldBounds(i) ==> ValidIntent(i)
  {
  }

  /** `ChatResponse`. */
  datatype ChatResponse = ChatResponse(
    status: ChatStatus,
    modifiedItinerary: Option<Roadmap>,
    message: string,
    diffKeys: seq<string>)

  /** `ChatResponse(status=s)`: every other field takes its declared default. */
  function DefaultChatResponse(status: ChatStatus): (r: ChatResponse)
    ensures r.status == status
    ensures r.modifiedItinerary.None? && |r.message| == 0 && |r.diffKeys| == 0
  {
    ChatResponse(status, None, "", [])
  }
}
