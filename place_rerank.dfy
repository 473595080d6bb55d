/**
 * LLM reranking of Places candidates (`app/services/place_rerank_service.py`).
 * The LLM reply is a parameter: None stands for a timeout, a failed call or
 * an unparsable reply; otherwise it is the parsed choices. What the module
 * guarantees is that an id it returns was one of the candidates offered.
 */
module PlaceRerank {
  import opened Wrappers
  import opened PyText
  import opened PyList
  import opened Itinerary

  /** One slot of a day sent for reranking; an absent text field is "". */
  datatype RerankSlot = RerankSlot(slotKey: string, section: string, area: string, keyword: string, candidates: seq<Candidate>)

  /** One `RoadmapRerankChoice` of the LLM reply. */
  datatype RerankChoice = RerankChoice(slotKey: string, placeId: string)

  /** The slots with at most `maxCandidates` candidates each. */
  function TrimmedSlots(slots: seq<RerankSlot>, maxCandidates: int): (r: seq<RerankSlot>)
  {
    seq(|slots|, i requires 0 <= i < |slots| => slots[i].(candidates := Take(slots[i].candidates, maxCandidates)))
  }

  /** `_trim_roadmap_slots`: keeps every slot and its fields, and the first `maxCandidates` candidates in order. */
  method TrimRoadmapSlots(slots: seq<RerankSlot>, maxCandidates: int) returns (trimmed: seq<RerankSlot>)
    ensures |trimmed| == |slots|
    ensures forall i :: 0 <= i < |slots| ==>
      trimmed[i].(candidates := slots[i].candidates) == slots[i]
      && |trimmed[i].candidates| <= |slots[i].candidates|
      && trimmed[i].candidates == slots[i].candidates[..|trimmed[i].candidates|]
      && (maxCandidates >= 0 ==> |trimmed[i].candidates| <= maxCandidates)
    ensures trimmed == TrimmedSlots(slots, maxCandidates)
  {
    trimmed := [];
    var i := 0;
    while i < |slots|
      invariant 0 <= i <= |slots|
      invariant trimmed == TrimmedSlots(slots[..i], maxCandidates)
    {
      trimmed := trimmed + [slots[i].(candidates := Take(slots[i].candidates, maxCandidates))];
      i := i + 1;
      assert slots[..i] == slots[..i - 1] + [slots[i - 1]];
    }
    assert slots[..i] == slots;
  }

  /** `_trim_chat_candidates`. */
  function TrimChatCandidates(candidates: seq<Candidate>, maxCandidates: int): (r: seq<Candidate>)
    ensures |r| <= |candidates| && r == candidates[..|r|]
    ensures maxCandidates >= 0 ==> |r| <= maxCandidates
    ensures 0 <= maxCandidates <= |candidates| ==> |r| == maxCandidates
  {
    Take(candidates, maxCandidates)
  }

  /** The non-blank stripped place ids of a slot's candidates. */
  function SlotIds(cs: seq<Candidate>): set<string>
  {
    set j | 0 <= j < |cs| && |Strip(cs[j].placeId)| > 0 :: Strip(cs[j].placeId)
  }

  /**
   * `candidate_ids_by_slot`: stripped slot key to its candidates' ids, for
   * slots with a key and at least one id; a later slot with the same key wins.
   */
  function IdsBySlot(slots: seq<RerankSlot>): (m: map<string, set<string>>)
    ensures forall k :: k in m ==> |k| > 0 && |m[k]| > 0
    decreases |slots|
  {
    if |slots| == 0 then map[]
    else
      var m := IdsBySlot(slots[..|slots| - 1]);
      var s := slots[|slots| - 1];
      var key := Strip(s.slotKey);
      var ids := SlotIds(s.candidates);
      if |key| == 0 || |ids| == 0 then m else m[key := ids]
  }

  /** Each id set of `IdsBySlot` is the id set of a slot carrying that key. */
  lemma {:induction false} IdsBySlotFrom(slots: seq<RerankSlot>, k: string)
    requires k in IdsBySlot(slots)
    ensures exists j :: 0 <= j < |slots| && Strip(slots[j].slotKey) == k && IdsBySlot(slots)[k] == SlotIds(slots[j].candidates)
    decreases |slots|
  {
    var n := |slots| - 1;
    var prefix := slots[..n];
    var key := Strip(slots[n].slotKey);
    var ids := SlotIds(slots[n].candidates);
    if |key| > 0 && |ids| > 0 && k == key {
      assert Strip(slots[n].slotKey) == k;
    } else {
      IdsBySlotFrom(prefix, k);
      var j :| 0 <= j < |prefix| && Strip(prefix[j].slotKey) == k && IdsBySlot(prefix)[k] == SlotIds(prefix[j].candidates);
      assert prefix[j] == slots[j];
    }
  }

  /**
   * The `selected` dict built from the reply: a choice with a blank key or
   * id, or with an id not offered for its slot, is dropped; a later valid
   * choice for the same slot wins.
   */
  function Selected(choices: seq<RerankChoice>, ids: map<string, set<string>>): (m: map<string, string>)
    decreases |choices|
  {
    if |choices| == 0 then map[]
    else
      var m := Selected(choices[..|choices| - 1], ids);
      var c := choices[|choices| - 1];
      var key := Strip(c.slotKey);
      var id := Strip(c.placeId);
      if |key| == 0 || |id| == 0 then m
      else if key in ids && id in ids[key] then m[key := id]
      else m
  }

  /** A choice that survives the validation. */
  predicate ValidChoice(c: RerankChoice, ids: map<string, set<string>>)
  {
    |Strip(c.slotKey)| > 0 && |Strip(c.placeId)| > 0
    && Strip(c.slotKey) in ids && Strip(c.placeId) in ids[Strip(c.slotKey)]
  }

  /** Every selected pair names an offered slot and one of that slot's ids. */
  lemma {:induction false} SelectedValid(choices: seq<RerankChoice>, ids: map<string, set<string>>)
    ensures forall k :: k in Selected(choices, ids) ==> k in ids && Selected(choices, ids)[k] in ids[k]
    decreases |choices|
  {
    if |choices| > 0 { SelectedValid(choices[..|choices| - 1], ids); }
  }

  /** Every valid choice's slot is selected (with its own or a later valid id). */
  lemma {:induction false} SelectedComplete(choices: seq<RerankChoice>, ids: map<string, set<string>>, j: nat)
    requires j < |choices| && ValidChoice(choices[j], ids)
    ensures Strip(choices[j].slotKey) in Selected(choices, ids)
    decreases |choices|
  {
    if j < |choices| - 1 {
      var prefix := choices[..|choices| - 1];
      assert prefix[j] == choices[j];
      SelectedComplete(prefix, ids, j);
    }
  }

  /** The `candidate_ids_by_slot` loop. */
  method BuildCandidateIds(trimmed: seq<RerankSlot>) returns (m: map<string, set<string>>)
    ensures m == IdsBySlot(trimmed)
  {
    m := map[];
    var i := 0;
    while i < |trimmed|
      invariant 0 <= i <= |trimmed|
      invariant m == IdsBySlot(trimmed[..i])
    {
      var key := Strip(trimmed[i].slotKey);
      var ids := SlotIds(trimmed[i].candidates);
      if |key| > 0 && |ids| > 0 {
        m := m[key := ids];
      }
      i := i + 1;
      assert trimmed[..i][..i - 1] == trimmed[..i - 1];
    }
    assert trimmed[..i] == trimmed;
  }

  /** The `selected` loop over the reply's choices. */
  method SelectChoices(choices: seq<RerankChoice>, ids: map<string, set<string>>) returns (m: map<string, string>)
    ensures m == Selected(choices, ids)
  {
    m := map[];
    var i := 0;
    while i < |choices|
      invariant 0 <= i <= |choices|
      invariant m == Selected(choices[..i], ids)
    {
      var key := Strip(choices[i].slotKey);
      var id := Strip(choices[i].placeId);
      if |key| > 0 && |id| > 0 && key in ids && id in ids[key] {
        m := m[key := id];
      }
      i := i + 1;
      assert choices[..i][..i - 1] == choices[..i - 1];
    }
    assert choices[..i] == choices;
  }

  /** What `select_place_ids_for_day` returns once the LLM has replied. */
  function DaySelection(slots: seq<RerankSlot>, maxCandidates: int, choices: seq<RerankChoice>): Option<map<string, string>>
  {
    var sel := Selected(choices, IdsBySlot(TrimmedSlots(slots, maxCandidates)));
    if |sel| == 0 then None else Some(sel)
  }

  /**
   * `select_place_ids_for_day`: `{}` for no slots (the LLM is not asked),
   * None on a failed reply or when no choice survives, else the validated
   * choices.
   */
  method SelectPlaceIdsForDay(slots: seq<RerankSlot>, maxCandidates: int, reply: Option<seq<RerankChoice>>)
    returns (r: Option<map<string, string>>)
    ensures |slots| == 0 ==> r == Some(map[])
    ensures |slots| > 0 && reply.None? ==> r.None?
    ensures |slots| > 0 && reply.Some? ==> r == DaySelection(slots, maxCandidates, reply.value)
    ensures |slots| > 0 && r.Some? ==> |r.value| > 0
  {
    if |slots| == 0 {
      return Some(map[]);
    }
    var trimmed := TrimRoadmapSlots(slots, maxCandidates);
    if reply.None? {
      return None;
    }
    var ids := BuildCandidateIds(trimmed);
    var selected := SelectChoices(reply.value, ids);
    r := if |selected| == 0 then None else Some(selected);
  }

  /** An id of `SlotIds` is the stripped id of one of the candidates. */
  lemma SlotIdsMember(cs: seq<Candidate>, v: string)
    requires v in SlotIds(cs)
    ensures exists c :: 0 <= c < |cs| && Strip(cs[c].placeId) == v
  {
  }

  /** Every slot id the day rerank returns is a stripped id of a trimmed candidate of a slot with that key. */
  lemma DaySelectionOffered(slots: seq<RerankSlot>, maxCandidates: int, choices: seq<RerankChoice>, k: string)
    requires var r := DaySelection(slots, maxCandidates, choices); r.Some? && k in r.value
    ensures exists j, c :: (0 <= j < |slots| && 0 <= c < |slots[j].candidates|
      && (maxCandidates >= 0 ==> c < maxCandidates)
      && Strip(slots[j].slotKey) == k
      && Strip(slots[j].candidates[c].placeId) == DaySelection(slots, maxCandidates, choices).value[k])
  {
    var trimmed := TrimmedSlots(slots, maxCandidates);
    var ids := IdsBySlot(trimmed);
    var sel := Selected(choices, ids);
    assert DaySelection(slots, maxCandidates, choices) == Some(sel);
    SelectedValid(choices, ids);
    var v := sel[k];
    assert k in ids && v in ids[k];
    IdsBySlotFrom(trimmed, k);
    var j :| 0 <= j < |trimmed| && Strip(trimmed[j].slotKey) == k && ids[k] == SlotIds(trimmed[j].candidates);
    var cs := trimmed[j].candidates;
    assert cs == Take(slots[j].candidates, maxCandidates);
    SlotIdsMember(cs, v);
    var c :| 0 <= c < |cs| && Strip(cs[c].placeId) == v;
    assert cs[c] == slots[j].candidates[c];
    assert Strip(slots[j].slotKey) == k;
  }

  /** The stripped ids of the chat candidates (blank ones included). */
  function ChatCandidateIds(cs: seq<Candidate>): set<string>
  {
    set j | 0 <= j < |cs| :: Strip(cs[j].placeId)
  }

  /**
   * `select_place_id_for_chat`: None with no candidates; the sole candidate's
   * id (None when empty) with one; otherwise the stripped reply if it is one
   * of the trimmed candidates' stripped ids.
   */
  function SelectPlaceIdForChat(candidates: seq<Candidate>, maxCandidates: int, reply: Option<string>): (r: Option<string>)
    ensures |candidates| == 0 ==> r.None?
    ensures |candidates| == 1 && r.Some? ==> r.value == candidates[0].placeId && |r.value| > 0
    ensures |candidates| >= 2 && r.Some? ==> r.value in ChatCandidateIds(TrimChatCandidates(candidates, maxCandidates))
    ensures |candidates| >= 2 && reply.Some? ==>
      (r.Some? <==> Strip(reply.value) in ChatCandidateIds(TrimChatCandidates(candidates, maxCandidates)))
    ensures |candidates| >= 2 && reply.None? ==> r.None?
  {
    if |candidates| == 0 then None
    else if |candidates| == 1 then (if |candidates[0].placeId| == 0 then None else Some(candidates[0].placeId))
    else if reply.None? then None
    else
      var selected := Strip(reply.value);
      if selected in ChatCandidateIds(TrimChatCandidates(candidates, maxCandidates)) then Some(selected) else None
  }

  /** With at most one candidate the LLM reply plays no part. */
  lemma ChatSelectionNeedsNoReply(candidates: seq<Candidate>, maxCandidates: int, a: Option<string>, b: Option<string>)
    requires |candidates| <= 1
    ensures SelectPlaceIdForChat(candidates, maxCandidates, a) == SelectPlaceIdForChat(candidates, maxCandidates, b)
  {
  }

  /** The chat choice, when there is one, is the (stripped) id of one of the candidates. */
  lemma ChatSelectionOffered(candidates: seq<Candidate>, maxCandidates: int, reply: Option<string>)
    requires SelectPlaceIdForChat(candidates, maxCandidates, reply).Some?
    ensures exists j :: (0 <= j < |candidates| &&
      SelectPlaceIdForChat(candidates, maxCandidates, reply).value in {candidates[j].placeId, Strip(candidates[j].placeId)})
  {
    var v := SelectPlaceIdForChat(candidates, maxCandidates, reply).value;
    if |candidates| == 1 {
      assert v in {candidates[0].placeId, Strip(candidates[0].placeId)};
    } else {
      var t := TrimChatCandidates(candidates, maxCandidates);
      var j :| 0 <= j < |t| && Strip(t[j].placeId) == v;
      assert t[j] == candidates[j];
    }
  }
}
