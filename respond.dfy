/**
 * The final node of the itinerary chat (`app/graph/chat/nodes/respond.py`):
 * it masks any error behind a fixed message, defaults the status to
 * SUCCESS, and turns the outcome into a reply through the LLM, falling back
 * to the change summary when the LLM call fails. The LLM reply is a
 * parameter (None when the call raises).
 */
module ChatRespond {
  import opened Wrappers
  import opened PyText
  import opened ChatSchema
  import opened ChatGraphState

  const InternalErrorMessage: string := "요청을 처리하는 중 내부 오류가 발생했습니다. 잠시 후 다시 시도해 주세요."
  const FallbackMessage: string := "수정 처리 중 오류가 발생했습니다."

  /** The reply text: the stripped LLM reply, else the change summary, else the fixed fallback. */
  function ReplyText(changeSummary: string, reply: Option<string>): (r: string)
    ensures reply.None? ==> |r| > 0
  {
    if reply.Some? then Strip(reply.value)
    else if |changeSummary| > 0 then changeSummary
    else FallbackMessage
  }

  /** What `respond` returns for a state. */
  function RespondNode(s: ChatState, reply: Option<string>): (r: ChatState)
    ensures r == s.(status := r.status, message := r.message)
    ensures r.status.Some?
  {
    if HasError(s) then s.(status := Some(Rejected), message := InternalErrorMessage)
    else s.(status := Some(s.status.GetOr(Success)), message := ReplyText(s.changeSummary, reply))
  }

  /**
   * An error becomes REJECTED with one fixed message, whatever the error
   * text and the LLM reply; the error itself, the diff keys, the modified
   * itinerary and the warnings pass through.
   */
  lemma RespondMasksError(s: ChatState, reply: Option<string>)
    requires HasError(s)
    ensures var r := RespondNode(s, reply);
      r.status == Some(Rejected) && r.message == InternalErrorMessage
      && r.error == s.error && r.diffKeys == s.diffKeys && r.modifiedItinerary == s.modifiedItinerary
      && r.warnings == s.warnings
  {
  }

  /** Two failed states get the same reply: the message does not depend on the error. */
  lemma RespondErrorIndependent(s: ChatState, e: string, reply: Option<string>, reply': Option<string>)
    requires HasError(s) && |e| > 0
    ensures RespondNode(s, reply).message == RespondNode(s.(error := Some(e)), reply').message
  {
  }

  /** Without an error the status is the incoming one, or SUCCESS when there is none. */
  lemma RespondStatusDefault(s: ChatState, reply: Option<string>)
    requires !HasError(s)
    ensures RespondNode(s, reply).status == (if s.status.Some? then s.status else Some(Success))
  {
  }

  /** When the LLM fails, the reply is the change summary when there is one, else the fixed fallback. */
  lemma RespondLlmFailure(s: ChatState)
    requires !HasError(s)
    ensures RespondNode(s, None).message == (if |s.changeSummary| > 0 then s.changeSummary else FallbackMessage)
  {
  }

  /** A successful LLM call gives its stripped text, and the state keeps everything else. */
  lemma RespondLlmReply(s: ChatState, text: string)
    requires !HasError(s)
    ensures var r := RespondNode(s, Some(text));
      r.message == Strip(text) && r.diffKeys == s.diffKeys && r.modifiedItinerary == s.modifiedItinerary
      && r.warnings == s.warnings && r.changeSummary == s.changeSummary
  {
  }
}
