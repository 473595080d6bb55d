/**
 * The visit-time proposal call (`app/core/visit_time_llm.py`): the days are
 * sent to the LLM as input records, the reply is freed of its code fence and
 * parsed into a plan, and the plan becomes a map from day number to a map
 * from visit sequence to a proposed `HH:MM` text. The LLM and the parser are
 * oracles: the reply is `None` on a timeout or an exception, and the parser
 * answers `None` on a reply it cannot read.
 */
module VisitTimeLlm {
  import opened Wrappers
  import opened PyText
  import opened Itinerary
  import RoadmapUtils

  datatype ProposalSlot = ProposalSlot(visitSequence: int, visitTime: Option<string>)
  datatype ProposalDay = ProposalDay(dayNumber: int, places: seq<ProposalSlot>)
  datatype ProposalPlan = ProposalPlan(days: seq<ProposalDay>)

  /** Day number to visit sequence to proposed time. */
  type Proposals = map<int, map<int, string>>

  // ---------------------------------------------------------------- the last write wins

  /**
   * A dictionary filled in list order, `d[key(x)] = value(x)` for the items
   * `keep` accepts: a later item overwrites an earlier one with its key.
   */
  function LastWins<T, V>(xs: seq<T>, key: T -> int, value: T -> V, keep: T -> bool): (r: map<int, V>)
    decreases |xs|
  {
    if |xs| == 0 then map[]
    else
      var m := LastWins(xs[..|xs| - 1], key, value, keep);
      var x := xs[|xs| - 1];
      if keep(x) then m[key(x) := value(x)] else m
  }

  /** The position of the last kept item with key `q` before `n`, or -1. */
  function LastKept<T>(xs: seq<T>, key: T -> int, keep: T -> bool, q: int, n: nat): (k: int)
    requires n <= |xs|
    ensures -1 <= k < n
    ensures k >= 0 ==> key(xs[k]) == q && keep(xs[k])
    ensures forall j :: k < j < n ==> !(key(xs[j]) == q && keep(xs[j]))
    decreases n
  {
    if n == 0 then -1
    else if key(xs[n - 1]) == q && keep(xs[n - 1]) then n - 1
    else LastKept(xs, key, keep, q, n - 1)
  }

  /**
   * A key is in the dictionary exactly when some kept item has it, and it then
   * holds the value of the last such item.
   */
  lemma {:induction false} LastWinsSpec<T, V>(xs: seq<T>, key: T -> int, value: T -> V, keep: T -> bool, q: int)
    ensures var k := LastKept(xs, key, keep, q, |xs|);
      (q in LastWins(xs, key, value, keep) <==> k >= 0)
      && (k >= 0 ==> LastWins(xs, key, value, keep)[q] == value(xs[k]))
    decreases |xs|
  {
    if |xs| > 0 {
      var init := xs[..|xs| - 1];
      LastWinsSpec(init, key, value, keep, q);
      LastKeptPrefix(xs, key, keep, q, |xs| - 1);
    }
  }

  /** `LastKept` below `n` does not look past `n`, so it agrees on a prefix. */
  lemma {:induction false} LastKeptPrefix<T>(xs: seq<T>, key: T -> int, keep: T -> bool, q: int, n: nat)
    requires n <= |xs|
    ensures LastKept(xs[..n], key, keep, q, n) == LastKept(xs, key, keep, q, n)
    decreases n
  {
    if n > 0 {
      assert xs[..n][n - 1] == xs[n - 1];
      assert xs[..n][..n - 1] == xs[..n - 1];
      LastKeptPrefix(xs[..n], key, keep, q, n - 1);
      LastKeptPrefix(xs, key, keep, q, n - 1);
    }
  }

  /** Every value in the dictionary is the value of a kept item. */
  lemma {:induction false} LastWinsValues<T, V>(xs: seq<T>, key: T -> int, value: T -> V, keep: T -> bool, q: int)
    requires q in LastWins(xs, key, value, keep)
    ensures exists k :: 0 <= k < |xs| && keep(xs[k]) && key(xs[k]) == q && LastWins(xs, key, value, keep)[q] == value(xs[k])
  {
    LastWinsSpec(xs, key, value, keep, q);
    var k := LastKept(xs, key, keep, q, |xs|);
    assert keep(xs[k]) && key(xs[k]) == q;
  }

  // ---------------------------------------------------------------- `_to_proposal_map`

  /** A slot's proposed time, stripped; a missing time reads as blank. */
  function SlotTime(s: ProposalSlot): (t: string)
    ensures RoadmapUtils.Stripped(t)
  {
    Strip(s.visitTime.GetOr(""))
  }

  function SlotKey(s: ProposalSlot): int { s.visitSequence }
  predicate SlotKept(s: ProposalSlot) { |SlotTime(s)| > 0 }

  /** `day_map` of one day: the non-blank times by visit sequence. */
  function DayMapOf(slots: seq<ProposalSlot>): map<int, string>
  {
    LastWins(slots, SlotKey, SlotTime, SlotKept)
  }

  /**
   * A visit sequence is in the day map exactly when some slot with it has a
   * non-blank time, and it maps to the stripped time of the last such slot.
   */
  lemma DayMapSpec(slots: seq<ProposalSlot>, q: int)
    ensures var k := LastKept(slots, SlotKey, SlotKept, q, |slots|);
      (q in DayMapOf(slots) <==> k >= 0)
      && (k >= 0 ==> DayMapOf(slots)[q] == SlotTime(slots[k]) && |SlotTime(slots[k])| > 0)
  {
    LastWinsSpec(slots, SlotKey, SlotTime, SlotKept, q);
  }

  /** Every time in a day map is non-blank and stripped. */
  lemma DayMapTimes(slots: seq<ProposalSlot>, q: int)
    requires q in DayMapOf(slots)
    ensures |DayMapOf(slots)[q]| > 0 && RoadmapUtils.Stripped(DayMapOf(slots)[q])
  {
    LastWinsValues(slots, SlotKey, SlotTime, SlotKept, q);
  }

  function DayKey(d: ProposalDay): int { d.dayNumber }
  function DayValue(d: ProposalDay): map<int, string> { DayMapOf(d.places) }
  predicate DayKept(d: ProposalDay) { |DayMapOf(d.places)| > 0 }

  /** `_to_proposal_map`: the non-empty day maps by day number. */
  function PlanMapOf(days: seq<ProposalDay>): Proposals
  {
    LastWins(days, DayKey, DayValue, DayKept)
  }

  /**
   * A day number is in the proposal map exactly when some day with it has a
   * non-empty day map, and it maps to the day map of the last such day;
   * no day map in the result is empty.
   */
  lemma PlanMapSpec(days: seq<ProposalDay>, d: int)
    ensures var k := LastKept(days, DayKey, DayKept, d, |days|);
      (d in PlanMapOf(days) <==> k >= 0)
      && (k >= 0 ==> PlanMapOf(days)[d] == DayMapOf(days[k].places) && |PlanMapOf(days)[d]| > 0)
  {
    LastWinsSpec(days, DayKey, DayValue, DayKept, d);
  }

  /** The inner loop of `_to_proposal_map` over one day's slots. */
  method BuildDayMap(slots: seq<ProposalSlot>) returns (dayMap: map<int, string>)
    ensures dayMap == DayMapOf(slots)
  {
    dayMap := map[];
    var i := 0;
    while i < |slots|
      invariant 0 <= i <= |slots|
      invariant dayMap == DayMapOf(slots[..i])
    {
      assert slots[..i + 1][..i] == slots[..i];
      var visitTime := Strip(slots[i].visitTime.GetOr(""));
      if |visitTime| > 0 {
        dayMap := dayMap[slots[i].visitSequence := visitTime];
      }
      i := i + 1;
    }
    assert slots[..i] == slots;
  }

  /** `_to_proposal_map`: the outer loop over the days of the plan. */
  method ToProposalMap(plan: ProposalPlan) returns (proposals: Proposals)
    ensures proposals == PlanMapOf(plan.days)
  {
    proposals := map[];
    var i := 0;
    while i < |plan.days|
      invariant 0 <= i <= |plan.days|
      invariant proposals == PlanMapOf(plan.days[..i])
    {
      assert plan.days[..i + 1][..i] == plan.days[..i];
      var dayMap := BuildDayMap(plan.days[i].places);
      if |dayMap| > 0 {
        proposals := proposals[plan.days[i].dayNumber := dayMap];
      }
      i := i + 1;
    }
    assert plan.days[..i] == plan.days;
  }

  // ---------------------------------------------------------------- `_build_input_days`

  /** A day as the caller hands it in: the number, an optional date and the places. */
  datatype DayInput = DayInput(dayNumber: int, dailyDate: Option<string>, places: seq<Place>)

  /** A place as the prompt shows it. */
  datatype InputPlace = InputPlace(visitSequence: Option<int>, placeName: string, sectionHint: Option<string>,
                                   timeHint: Option<string>, address: string, latitude: Option<real>, longitude: Option<real>)

  datatype InputDay = InputDay(dayNumber: int, dailyDate: Option<string>, places: seq<InputPlace>)

  /** The section hint of a place: its `section` when that is non-empty, else its `section_hint`. */
  function HintOf(p: Place): (r: Option<string>)
    ensures p.section.Some? && |p.section.value| > 0 ==> r == p.section
    ensures p.section.None? || |p.section.value| == 0 ==> r == p.sectionHint
  {
    if p.section.Some? && |p.section.value| > 0 then p.section else p.sectionHint
  }

  function InputPlaceOf(p: Place): (r: InputPlace)
    ensures r.visitSequence == p.visitSequence && r.placeName == p.placeName && r.sectionHint == HintOf(p)
    ensures r.timeHint == p.visitTime && r.address == p.address && r.latitude == p.latitude && r.longitude == p.longitude
  {
    InputPlace(p.visitSequence, p.placeName, HintOf(p), p.visitTime, p.address, p.latitude, p.longitude)
  }

  /** One input record: the same day number, date and places, each place as the prompt shows it. */
  function InputDayOf(d: DayInput): (r: InputDay)
    ensures r.dayNumber == d.dayNumber && r.dailyDate == d.dailyDate && |r.places| == |d.places|
    ensures forall k :: 0 <= k < |d.places| ==> r.places[k] == InputPlaceOf(d.places[k])
  {
    InputDay(d.dayNumber, d.dailyDate, seq(|d.places|, k requires 0 <= k < |d.places| => InputPlaceOf(d.places[k])))
  }

  /** `_build_input_days`: one record per day, in order. */
  method BuildInputDays(days: seq<DayInput>) returns (input: seq<InputDay>)
    ensures |input| == |days|
    ensures forall k :: 0 <= k < |days| ==> input[k] == InputDayOf(days[k])
  {
    input := [];
    var i := 0;
    while i < |days|
      invariant 0 <= i <= |days| && |input| == i
      invariant forall k :: 0 <= k < i ==> input[k] == InputDayOf(days[k])
    {
      input := input + [InputDayOf(days[i])];
      i := i + 1;
    }
  }

  // ---------------------------------------------------------------- `propose_visit_times_for_days`

  /** The LLM is asked only for a non-empty list with at least one day that has places. */
  predicate AsksLlm(days: seq<DayInput>)
  {
    |days| > 0 && exists k :: 0 <= k < |days| && |days[k].places| > 0
  }

  /**
   * `propose_visit_times_for_days`: `{}` without asking the LLM, on a failed
   * call and on an unreadable reply; else the proposal map of the parsed plan.
   */
  function ProposeVisitTimes(days: seq<DayInput>, reply: Option<string>, parse: string -> Option<ProposalPlan>): (r: Proposals)
    ensures !AsksLlm(days) || reply.None? ==> r == map[]
    ensures AsksLlm(days) && reply.Some? && parse(RoadmapUtils.StripCodeFence(reply.value)).None? ==> r == map[]
  {
    if !AsksLlm(days) || reply.None? then map[]
    else
      var parsed := parse(RoadmapUtils.StripCodeFence(reply.value));
      if parsed.None? then map[] else PlanMapOf(parsed.value.days)
  }

  /**
   * Without a day that has places the reply and the parser are never
   * consulted: any two of them give the same, empty, result.
   */
  lemma NoCallWithoutPlaces(days: seq<DayInput>, reply1: Option<string>, parse1: string -> Option<ProposalPlan>,
                            reply2: Option<string>, parse2: string -> Option<ProposalPlan>)
    requires forall k :: 0 <= k < |days| ==> |days[k].places| == 0
    ensures ProposeVisitTimes(days, reply1, parse1) == ProposeVisitTimes(days, reply2, parse2) == map[]
  {
  }

  /**
   * Every proposal made is for a day with a non-empty map, every time in it
   * is non-blank and stripped, and it comes from a slot of a parsed day with
   * that number.
   */
  lemma ProposalsWellFormed(days: seq<DayInput>, reply: Option<string>, parse: string -> Option<ProposalPlan>, d: int, q: int)
    requires d in ProposeVisitTimes(days, reply, parse)
    ensures |ProposeVisitTimes(days, reply, parse)[d]| > 0
    ensures q in ProposeVisitTimes(days, reply, parse)[d] ==>
      |ProposeVisitTimes(days, reply, parse)[d][q]| > 0 && RoadmapUtils.Stripped(ProposeVisitTimes(days, reply, parse)[d][q])
  {
    var plan := parse(RoadmapUtils.StripCodeFence(reply.value)).value;
    PlanMapSpec(plan.days, d);
    var k := LastKept(plan.days, DayKey, DayKept, d, |plan.days|);
    if q in ProposeVisitTimes(days, reply, parse)[d] {
      DayMapTimes(plan.days[k].places, q);
    }
  }
}
