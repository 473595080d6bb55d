/**
 * The final node of the roadmap graph (`app/graph/roadmap/nodes/finalize.py`).
 * It turns the skeleton plan and the fetched candidates into numbered days of
 * places (the first candidate of every slot that has one), lets an LLM write
 * descriptions and visit times, falls back to fixed texts where the LLM is
 * silent or fails, and wraps the days into the final roadmap. The detail LLM
 * reply (already parsed), the summary LLM reply, the Pydantic error text and
 * the ISO rendering of a date are parameters.
 */
module RoadmapFinalize {
  import opened Wrappers
  import opened PyText
  import opened Itinerary
  import CourseSchema
  import RoadmapUtils
  import opened RoadmapGraphState
  import VisitTimePolicy

  // ---------------------------------------------------------------------
  // `_prepare_final_context`: the days of places handed to the detail LLM.
  // ---------------------------------------------------------------------

  /** Why `_prepare_final_context` raises `ValueError`. */
  datatype ContextError = MissingSkeleton | MissingFetched | MissingRequest | InvalidRequest(detail: string)

  function ContextErrorText(e: ContextError): string
  {
    match e
    case MissingSkeleton => "Context 생성을 위한 `skeleton_plan` 데이터가 없습니다."
    case MissingFetched => "Context 생성을 위한 `fetched_places` 데이터가 없습니다."
    case MissingRequest => "Context 생성을 위한 `course_request` 데이터가 없습니다."
    case InvalidRequest(detail) => "CourseRequest 모델 유효성 검증에 실패했습니다: " + detail
  }

  /** What `_prepare_final_context` yields: the validated request with the days, or the error it raises. */
  datatype Prepared = Prepared(request: CourseSchema.CourseRequest, days: seq<Day>) | Refused(error: ContextError)

  /** The text both the payload and the fallback put after a place name. */
  const DescriptionSuffix: string := "에서 즐기는 대표 활동입니다."

  const MapsSearchPrefix: string := "https://www.google.com/maps/search/?api=1&query="

  /** The subject of a fallback description when the place has no name. */
  const UnnamedPlace: string := "장소"

  /**
   * The `place_url` of a payload: the candidate's URL, else a Maps search
   * link built from the name and the place id, else none ("" stands for a
   * missing URL, a missing id and a missing address).
   */
  function PlaceUrl(c: Candidate): (r: string)
  {
    if |c.url| == 0 && |c.placeId| > 0 then MapsSearchPrefix + c.name + "&query_place_id=" + c.placeId
    else c.url
  }

  /** A payload has a URL exactly when its candidate has a URL or a place id; a URL of its own is kept. */
  lemma PlaceUrlPresent(c: Candidate)
    ensures |PlaceUrl(c)| == 0 <==> |c.url| == 0 && |c.placeId| == 0
    ensures |c.url| > 0 ==> PlaceUrl(c) == c.url
    ensures |c.url| == 0 && |c.placeId| > 0 ==>
      PlaceUrl(c)[..|MapsSearchPrefix|] == MapsSearchPrefix
      && PlaceUrl(c)[|PlaceUrl(c)| - |c.placeId|..] == c.placeId
  {
    if |c.url| == 0 && |c.placeId| > 0 {
      var r := MapsSearchPrefix + c.name + "&query_place_id=" + c.placeId;
      assert r == MapsSearchPrefix + (c.name + "&query_place_id=" + c.placeId);
    }
  }

  /** The `place_payload` dict written for the first candidate of a slot. */
  function Payload(c: Candidate, slot: RoadmapUtils.Slot, visitSequence: int, planned: bool): Place
  {
    Place(c.name, c.placeId, c.address, Some(c.latitude), Some(c.longitude), PlaceUrl(c),
          c.name + DescriptionSuffix, Some(visitSequence),
          if planned then None else Some(slot.section),
          if planned then Some(slot.section) else None,
          None)
  }

  /** Slot `i` of day `dayNumber` has at least one fetched candidate. */
  predicate Filled(dayNumber: int, i: int, fetched: map<string, seq<Candidate>>)
  {
    var key := RoadmapUtils.BuildSlotKey(dayNumber, i);
    key in fetched && |fetched[key]| > 0
  }

  /** The first candidate of a filled slot. */
  function FirstCandidate(dayNumber: int, i: int, fetched: map<string, seq<Candidate>>): Candidate
    requires Filled(dayNumber, i, fetched)
  {
    fetched[RoadmapUtils.BuildSlotKey(dayNumber, i)][0]
  }

  /**
   * The places the first `n` slots of a day contribute: filled slots only,
   * numbered 1, 2, … in slot order.
   */
  function SlotPlaces(dayNumber: int, slots: seq<RoadmapUtils.Slot>, n: nat,
                      fetched: map<string, seq<Candidate>>, planned: bool): (r: seq<Place>)
    requires n <= |slots|
    ensures |r| <= n
  {
    if n == 0 then []
    else
      var prior := SlotPlaces(dayNumber, slots, n - 1, fetched, planned);
      if Filled(dayNumber, n - 1, fetched)
      then prior + [Payload(FirstCandidate(dayNumber, n - 1, fetched), slots[n - 1], |prior| + 1, planned)]
      else prior
  }

  /** The positions of the filled slots among the first `n`, in increasing order. */
  function FilledSlots(dayNumber: int, n: nat, fetched: map<string, seq<Candidate>>): (r: seq<nat>)
    ensures forall j :: 0 <= j < |r| ==> r[j] < n && Filled(dayNumber, r[j], fetched)
    ensures forall j, k :: 0 <= j < k < |r| ==> r[j] < r[k]
    ensures forall i :: 0 <= i < n && Filled(dayNumber, i, fetched) ==> i in r
  {
    if n == 0 then []
    else
      var prior := FilledSlots(dayNumber, n - 1, fetched);
      if Filled(dayNumber, n - 1, fetched) then prior + [n - 1] else prior
  }

  /**
   * The `j`-th place of a day is the payload of the first candidate of the
   * `j`-th filled slot, numbered `j + 1`: empty slots are skipped and the
   * others keep their order.
   */
  lemma {:induction false} SlotPlacesFromFilled(dayNumber: int, slots: seq<RoadmapUtils.Slot>, n: nat,
                                                fetched: map<string, seq<Candidate>>, planned: bool)
    requires n <= |slots|
    ensures var r := SlotPlaces(dayNumber, slots, n, fetched, planned);
            var o := FilledSlots(dayNumber, n, fetched);
            |r| == |o|
            && forall j :: 0 <= j < |r| ==>
                 r[j] == Payload(FirstCandidate(dayNumber, o[j], fetched), slots[o[j]], j + 1, planned)
  {
    hide *;
    if n > 0 {
      SlotPlacesStep(dayNumber, slots, n, fetched, planned);
      SlotPlacesFromFilled(dayNumber, slots, n - 1, fetched, planned);
    } else {
      SlotPlacesZero(dayNumber, slots, fetched, planned);
    }
  }

  lemma SlotPlacesZero(dayNumber: int, slots: seq<RoadmapUtils.Slot>, fetched: map<string, seq<Candidate>>, planned: bool)
    ensures |SlotPlaces(dayNumber, slots, 0, fetched, planned)| == 0 && |FilledSlots(dayNumber, 0, fetched)| == 0
  {
  }

  /** One more slot adds the payload of its first candidate and its position exactly when it is filled. */
  lemma SlotPlacesStep(dayNumber: int, slots: seq<RoadmapUtils.Slot>, n: nat,
                       fetched: map<string, seq<Candidate>>, planned: bool)
    requires 0 < n <= |slots|
    ensures var prior := SlotPlaces(dayNumber, slots, n - 1, fetched, planned);
            var o := FilledSlots(dayNumber, n - 1, fetched);
            if Filled(dayNumber, n - 1, fetched) then
              SlotPlaces(dayNumber, slots, n, fetched, planned)
                == prior + [Payload(FirstCandidate(dayNumber, n - 1, fetched), slots[n - 1], |prior| + 1, planned)]
              && FilledSlots(dayNumber, n, fetched) == o + [n - 1]
            else
              SlotPlaces(dayNumber, slots, n, fetched, planned) == prior && FilledSlots(dayNumber, n, fetched) == o
  {
  }

  /** The day `_prepare_final_context` writes for one day of the plan. */
  function DayOf(dp: PlanDay, fetched: map<string, seq<Candidate>>, start: int, planned: bool,
                 isoDate: int -> string): Day
  {
    Day(dp.dayNumber, isoDate(start + dp.dayNumber - 1),
        SlotPlaces(dp.dayNumber, dp.slots, |dp.slots|, fetched, planned))
  }

  /** The days written for the first `n` days of the plan, one per plan day, in plan order. */
  function DailyPlaces(plan: seq<PlanDay>, n: nat, fetched: map<string, seq<Candidate>>, start: int,
                       planned: bool, isoDate: int -> string): (r: seq<Day>)
    requires n <= |plan|
    ensures |r| == n
  {
    if n == 0 then []
    else DailyPlaces(plan, n - 1, fetched, start, planned, isoDate) + [DayOf(plan[n - 1], fetched, start, planned, isoDate)]
  }

  /** Day `d` of the prepared days is the day written for plan day `d`. */
  lemma {:induction false} DailyPlacesAt(plan: seq<PlanDay>, n: nat, fetched: map<string, seq<Candidate>>, start: int,
                                         planned: bool, isoDate: int -> string, d: nat)
    requires d < n <= |plan|
    ensures DailyPlaces(plan, n, fetched, start, planned, isoDate)[d] == DayOf(plan[d], fetched, start, planned, isoDate)
  {
    hide DayOf;
    if d < n - 1 {
      DailyPlacesAt(plan, n - 1, fetched, start, planned, isoDate, d);
    }
  }

  /** `_prepare_final_context`, as a function of the state. */
  function PreparedOf(s: RoadmapState, isoDate: int -> string, validationDetail: string): Prepared
  {
    if s.skeletonPlan.None? || |s.skeletonPlan.value| == 0 then Refused(MissingSkeleton)
    else if s.fetchedPlaces.None? || |s.fetchedPlaces.value| == 0 then Refused(MissingFetched)
    else if s.courseRequest.None? then Refused(MissingRequest)
    else match CourseSchema.ValidateCourseRequest(s.courseRequest.value)
      case None => Refused(InvalidRequest(validationDetail))
      case Some(req) =>
        var plan := s.skeletonPlan.value;
        Prepared(req, DailyPlaces(plan, |plan|, s.fetchedPlaces.value, req.startDate,
                                  req.planningPreference == Planned, isoDate))
  }

  /**
   * A day as `_prepare_final_context` writes it for a plan day: the plan
   * day's number, the date `start_date + (day_number - 1)`, and at most one
   * place per slot, numbered 1..k; in planned mode a place has no visit time
   * and keeps the slot's section, otherwise the section is its visit time.
   */
  predicate NumberedDay(day: Day, dp: PlanDay, start: int, planned: bool, isoDate: int -> string)
  {
    day.dayNumber == dp.dayNumber
    && day.date == isoDate(start + dp.dayNumber - 1)
    && |day.places| <= |dp.slots|
    && forall j :: 0 <= j < |day.places| ==>
         day.places[j].visitSequence == Some(j + 1)
         && (planned ==> day.places[j].visitTime.None? && day.places[j].section.Some?)
         && (!planned ==> day.places[j].visitTime.Some? && day.places[j].section.None?)
  }

  lemma DayOfNumbered(dp: PlanDay, fetched: map<string, seq<Candidate>>, start: int, planned: bool,
                      isoDate: int -> string)
    ensures NumberedDay(DayOf(dp, fetched, start, planned, isoDate), dp, start, planned, isoDate)
  {
    SlotPlacesFromFilled(dp.dayNumber, dp.slots, |dp.slots|, fetched, planned);
  }

  /**
   * `_prepare_final_context` refuses exactly a missing or empty plan, missing
   * or empty candidates, a missing request and a request that does not
   * validate, in that order. Otherwise there is one numbered day per plan day.
   */
  lemma ContextDays(s: RoadmapState, isoDate: int -> string, validationDetail: string)
    ensures var r := PreparedOf(s, isoDate, validationDetail);
      (r == Refused(MissingSkeleton) <==> s.skeletonPlan.None? || |s.skeletonPlan.value| == 0)
      && (r == Refused(MissingFetched) <==>
            s.skeletonPlan.Some? && |s.skeletonPlan.value| > 0
            && (s.fetchedPlaces.None? || |s.fetchedPlaces.value| == 0))
      && (r.Prepared? <==>
            s.skeletonPlan.Some? && |s.skeletonPlan.value| > 0
            && s.fetchedPlaces.Some? && |s.fetchedPlaces.value| > 0
            && s.courseRequest.Some? && CourseSchema.ValidateCourseRequest(s.courseRequest.value).Some?)
    ensures var r := PreparedOf(s, isoDate, validationDetail);
      r.Prepared? ==>
        var plan := s.skeletonPlan.value;
        r.request == CourseSchema.ValidateCourseRequest(s.courseRequest.value).value
        && |r.days| == |plan|
        && forall d :: 0 <= d < |plan| ==>
             NumberedDay(r.days[d], plan[d], r.request.startDate, r.request.planningPreference == Planned, isoDate)
  {
    var r := PreparedOf(s, isoDate, validationDetail);
    if r.Prepared? {
      var plan := s.skeletonPlan.value;
      forall d | 0 <= d < |plan|
        ensures NumberedDay(r.days[d], plan[d], r.request.startDate, r.request.planningPreference == Planned, isoDate)
      {
        DailyPlacesAt(plan, |plan|, s.fetchedPlaces.value, r.request.startDate, r.request.planningPreference == Planned, isoDate, d);
        DayOfNumbered(plan[d], s.fetchedPlaces.value, r.request.startDate, r.request.planningPreference == Planned, isoDate);
      }
    }
  }

  /** The places of one plan day, built with the running `visit_sequence_counter`. */
  method PrepareDay(dp: PlanDay, fetched: map<string, seq<Candidate>>, start: int, planned: bool,
                    isoDate: int -> string) returns (day: Day)
    ensures day == DayOf(dp, fetched, start, planned, isoDate)
  {
    var places: seq<Place> := [];
    var counter := 1;
    for i := 0 to |dp.slots|
      invariant places == SlotPlaces(dp.dayNumber, dp.slots, i, fetched, planned)
      invariant counter == |places| + 1
    {
      var key := RoadmapUtils.BuildSlotKey(dp.dayNumber, i);
      if key in fetched && |fetched[key]| > 0 {
        var c := fetched[key][0];
        places := places + [Payload(c, dp.slots[i], counter, planned)];
        counter := counter + 1;
      }
    }
    day := Day(dp.dayNumber, isoDate(start + dp.dayNumber - 1), places);
  }

  /** `_prepare_final_context`: the checks, then one day per plan day. */
  method PrepareFinalContext(s: RoadmapState, isoDate: int -> string, validationDetail: string)
    returns (r: Prepared)
    ensures r == PreparedOf(s, isoDate, validationDetail)
  {
    if s.skeletonPlan.None? || |s.skeletonPlan.value| == 0 {
      return Refused(MissingSkeleton);
    }
    if s.fetchedPlaces.None? || |s.fetchedPlaces.value| == 0 {
      return Refused(MissingFetched);
    }
    if s.courseRequest.None? {
      return Refused(MissingRequest);
    }
    var validated := CourseSchema.ValidateCourseRequest(s.courseRequest.value);
    if validated.None? {
      return Refused(InvalidRequest(validationDetail));
    }
    var req := validated.value;
    var plan := s.skeletonPlan.value;
    var fetched := s.fetchedPlaces.value;
    var planned := req.planningPreference == Planned;
    var days: seq<Day> := [];
    for d := 0 to |plan|
      invariant days == DailyPlaces(plan, d, fetched, req.startDate, planned, isoDate)
    {
      var day := PrepareDay(plan[d], fetched, req.startDate, planned, isoDate);
      days := days + [day];
    }
    r := Prepared(req, days);
  }

  // ---------------------------------------------------------------------
  // The fallbacks of `_fill_place_details_with_llm`.
  // ---------------------------------------------------------------------

  /**
   * The hour of a fallback visit time: two hours per visit from 09:00,
   * capped at 23:00. Every such hour is odd.
   */
  function FallbackHour(sequence: int): (h: int)
    ensures 9 <= h <= 23 && h % 2 == 1
  {
    var base := 9 + Max(0, sequence - 1) * 2;
    if base > 23 then 23 else base
  }

  /** Later visits never get an earlier fallback hour, and before the cap each visit is two hours after the previous one. */
  lemma FallbackHourMonotone(s1: int, s2: int)
    requires s1 <= s2
    ensures FallbackHour(s1) <= FallbackHour(s2)
    ensures 1 <= s1 && s2 == s1 + 1 && FallbackHour(s1) < 23 ==> FallbackHour(s2) == FallbackHour(s1) + 2
  {
  }

  /** The visit sequence the fallback time uses: the place's own, else its position plus one. */
  function FallbackSequence(p: Place, index: nat): int
  {
    if p.visitSequence.Some? then p.visitSequence.value else index + 1
  }

  /** The upper-cased, stripped section of a place when it names a time of the section map. */
  predicate KnownSection(p: Place)
  {
    p.section.Some? && |p.section.value| > 0 && Upper(Strip(p.section.value)) in VisitTimePolicy.SectionTimeMap
  }

  /**
   * `_fallback_visit_time`: the time of the place's section, else
   * `"HH:00"` for its fallback hour. The section map of `finalize.py` has
   * the six entries of `VisitTimePolicy.SectionTimeMap`.
   */
  function FallbackVisitTime(p: Place, index: nat): string
  {
    if KnownSection(p) then VisitTimePolicy.SectionTimeMap[Upper(Strip(p.section.value))]
    else Pad2(FallbackHour(FallbackSequence(p, index))) + ":00"
  }

  /** The zero-padded hour text is the clock text of that hour. */
  lemma {:induction false} HourText(h: int)
    requires 9 <= h <= 23
    ensures Pad2(h) + ":00" == VisitTimePolicy.ClockText(h, 0)
  {
    assert Pad2(h) == [DigitChar(h / 10), DigitChar(h % 10)] by {
      if h >= 10 { assert NatText(h / 10) == [DigitChar(h / 10)]; }
    }
  }

  /** The six section times are whole hours from 09:00 to 22:00. */
  lemma SectionTimeClock(key: string)
    requires key in VisitTimePolicy.SectionTimeMap
    ensures exists h :: 9 <= h <= 22 && VisitTimePolicy.SectionTimeMap[key] == VisitTimePolicy.ClockText(h, 0)
  {
    var text := VisitTimePolicy.SectionTimeMap[key];
    var h := if key == "MORNING" then 9 else if key == "LUNCH" then 12 else if key == "AFTERNOON" then 14
             else if key == "DINNER" then 18 else if key == "EVENING" then 20 else 22;
    assert text == VisitTimePolicy.ClockText(h, 0);
  }

  /**
   * Every fallback visit time parses as a whole hour between 09:00 and
   * 23:00; without a known section it is the fallback hour of the place's
   * sequence (or of its position plus one).
   */
  lemma FallbackVisitTimeParses(p: Place, index: nat)
    ensures var m := VisitTimePolicy.ParseTimeToMinutes(Some(FallbackVisitTime(p, index)));
      m.Some? && 9 * 60 <= m.value <= 23 * 60 && m.value % 60 == 0
      && (!KnownSection(p) ==> m.value == 60 * FallbackHour(FallbackSequence(p, index)))
  {
    hide *;
    var h := FallbackClock(p, index);
    ClockHourParses(h);
  }

  /** Every fallback visit time is the clock text of a whole hour. */
  lemma FallbackClock(p: Place, index: nat) returns (h: int)
    ensures 9 <= h <= 23 && FallbackVisitTime(p, index) == VisitTimePolicy.ClockText(h, 0)
    ensures !KnownSection(p) ==> h == FallbackHour(FallbackSequence(p, index))
  {
    if KnownSection(p) {
      var key := Upper(Strip(p.section.value));
      SectionTimeClock(key);
      h :| 9 <= h <= 22 && VisitTimePolicy.SectionTimeMap[key] == VisitTimePolicy.ClockText(h, 0);
    } else {
      h := FallbackHour(FallbackSequence(p, index));
      HourText(h);
    }
  }

  lemma ClockHourParses(h: int)
    requires 9 <= h <= 23
    ensures var m := VisitTimePolicy.ParseTimeToMinutes(Some(VisitTimePolicy.ClockText(h, 0)));
      m.Some? && m.value == 60 * h
  {
    VisitTimePolicy.ClockTextParses(h, 0);
  }

  /** `_fallback_description`: the place name, or "장소" without one, before the fixed suffix. */
  function FallbackDescription(p: Place): (r: string)
  {
    (if |p.placeName| > 0 then p.placeName else UnnamedPlace) + DescriptionSuffix
  }

  /** A fallback description is never empty, ends in the fixed suffix and starts with the place's name when it has one. */
  lemma FallbackDescriptionShape(p: Place)
    ensures var r := FallbackDescription(p);
      |r| > |DescriptionSuffix| && r[|r| - |DescriptionSuffix|..] == DescriptionSuffix
      && (|p.placeName| > 0 ==> r[..|p.placeName|] == p.placeName)
      && (|p.placeName| == 0 ==> r[..|UnnamedPlace|] == UnnamedPlace)
  {
  }

  /** One place after `_apply_fallback`: a description when it had none, the fallback time when planned, no section. */
  function FallbackPlace(p: Place, index: nat, planned: bool): Place
  {
    p.(description := if |p.description| == 0 then FallbackDescription(p) else p.description,
       visitTime := if planned then Some(FallbackVisitTime(p, index)) else p.visitTime,
       section := None)
  }

  /** The first `n` places of a day after `_apply_fallback`. */
  function FallbackPlaces(ps: seq<Place>, n: nat, planned: bool): (r: seq<Place>)
    requires n <= |ps|
    ensures |r| == n && forall i :: 0 <= i < n ==> r[i] == FallbackPlace(ps[i], i, planned)
  {
    if n == 0 then [] else FallbackPlaces(ps, n - 1, planned) + [FallbackPlace(ps[n - 1], n - 1, planned)]
  }

  /** One day after `_apply_fallback`. */
  function FallbackDay(day: Day, planned: bool): Day
  {
    day.(places := FallbackPlaces(day.places, |day.places|, planned))
  }

  /** The first `n` days after `_apply_fallback`. */
  function FallbackDays(days: seq<Day>, n: nat, planned: bool): (r: seq<Day>)
    requires n <= |days|
    ensures |r| == n
    ensures forall d :: 0 <= d < n ==> r[d] == FallbackDay(days[d], planned)
  {
    if n == 0 then []
    else FallbackDays(days, n - 1, planned) + [FallbackDay(days[n - 1], planned)]
  }

  /** `_apply_fallback` on the places of one day, updated one by one. */
  method ApplyFallbackDay(ps: seq<Place>, planned: bool) returns (out: seq<Place>)
    ensures out == FallbackPlaces(ps, |ps|, planned)
  {
    out := ps;
    for index := 0 to |ps|
      invariant |out| == |ps|
      invariant forall k :: 0 <= k < index ==> out[k] == FallbackPlace(ps[k], k, planned)
      invariant forall k :: index <= k < |ps| ==> out[k] == ps[k]
    {
      out := out[index := FallbackPlace(out[index], index, planned)];
    }
  }

  /** `_apply_fallback`: every day's places get their fallbacks. */
  method ApplyFallback(days: seq<Day>, planned: bool) returns (out: seq<Day>)
    ensures out == FallbackDays(days, |days|, planned)
  {
    out := days;
    for d := 0 to |days|
      invariant |out| == |days|
      invariant forall k :: 0 <= k < d ==> out[k] == FallbackDay(days[k], planned)
      invariant forall k :: d <= k < |days| ==> out[k] == days[k]
    {
      var places := ApplyFallbackDay(out[d].places, planned);
      out := out[d := out[d].(places := places)];
    }
  }

  // ---------------------------------------------------------------------
  // The detail reply and its merge.
  // ---------------------------------------------------------------------

  /** `PlaceDetailSlot`. */
  datatype DetailSlot = DetailSlot(visitSequence: int, visitTime: Option<string>, description: Option<string>)

  /** `PlaceDetailDay`. */
  datatype DetailDay = DetailDay(dayNumber: int, places: seq<DetailSlot>)

  /** The `ge=1` bounds of `PlaceDetailDay.day_number` and `PlaceDetailSlot.visit_sequence`. */
  predicate ValidDetailPlan(days: seq<DetailDay>)
  {
    forall d :: 0 <= d < |days| ==>
      days[d].dayNumber >= 1 && forall k :: 0 <= k < |days[d].places| ==> days[d].places[k].visitSequence >= 1
  }

  /** The entries the first `n` slots of one detail day add to `detail_map`. */
  function DaySlotsMap(dayNumber: int, ps: seq<DetailSlot>, n: nat): map<(int, int), DetailSlot>
    requires n <= |ps|
  {
    if n == 0 then map[]
    else DaySlotsMap(dayNumber, ps, n - 1)[(dayNumber, ps[n - 1].visitSequence) := ps[n - 1]]
  }

  /** `detail_map` over the first `n` detail days: later entries overwrite earlier ones. */
  function DetailMapOf(days: seq<DetailDay>, n: nat): map<(int, int), DetailSlot>
    requires n <= |days|
  {
    if n == 0 then map[]
    else DetailMapOf(days, n - 1) + DaySlotsMap(days[n - 1].dayNumber, days[n - 1].places, |days[n - 1].places|)
  }

  /** The last of the first `n` slots of one detail day with the given key. */
  function LastInDay(dayNumber: int, ps: seq<DetailSlot>, n: nat, key: (int, int)): Option<DetailSlot>
    requires n <= |ps|
  {
    if n == 0 then None
    else if dayNumber == key.0 && ps[n - 1].visitSequence == key.1 then Some(ps[n - 1])
    else LastInDay(dayNumber, ps, n - 1, key)
  }

  /** The last slot with the given key over the first `n` detail days, reading days and slots in order. */
  function LastDetail(days: seq<DetailDay>, n: nat, key: (int, int)): Option<DetailSlot>
    requires n <= |days|
  {
    if n == 0 then None
    else match LastInDay(days[n - 1].dayNumber, days[n - 1].places, |days[n - 1].places|, key)
      case Some(slot) => Some(slot)
      case None => LastDetail(days, n - 1, key)
  }

  lemma {:induction false} DaySlotsMapLast(dayNumber: int, ps: seq<DetailSlot>, n: nat, key: (int, int))
    requires n <= |ps|
    ensures key in DaySlotsMap(dayNumber, ps, n) <==> LastInDay(dayNumber, ps, n, key).Some?
    ensures key in DaySlotsMap(dayNumber, ps, n) ==> DaySlotsMap(dayNumber, ps, n)[key] == LastInDay(dayNumber, ps, n, key).value
  {
    if n > 0 {
      DaySlotsMapLast(dayNumber, ps, n - 1, key);
    }
  }

  /**
   * `detail_map` holds a key exactly when some detail slot has it, and then
   * it holds the last such slot: later duplicates win.
   */
  lemma {:induction false} DetailMapLast(days: seq<DetailDay>, n: nat, key: (int, int))
    requires n <= |days|
    ensures key in DetailMapOf(days, n) <==> LastDetail(days, n, key).Some?
    ensures key in DetailMapOf(days, n) ==> DetailMapOf(days, n)[key] == LastDetail(days, n, key).value
  {
    if n > 0 {
      DetailMapLast(days, n - 1, key);
      DaySlotsMapLast(days[n - 1].dayNumber, days[n - 1].places, |days[n - 1].places|, key);
    }
  }

  /** The detail of a place: the entry for its day and visit sequence, if any. */
  function DetailFor(p: Place, dayNumber: int, detailMap: map<(int, int), DetailSlot>): Option<DetailSlot>
  {
    if p.visitSequence.Some? && (dayNumber, p.visitSequence.value) in detailMap
    then Some(detailMap[(dayNumber, p.visitSequence.value)])
    else None
  }

  /** The stripped text of an optional LLM field, "" when it is missing. */
  function DetailText(field: Option<string>): string
  {
    Strip(field.GetOr(""))
  }

  /** The visit time the merge writes in planned mode: the detail's stripped time, else the fallback. */
  function MergedVisitTime(p: Place, index: nat, detail: Option<DetailSlot>): string
  {
    var text := if detail.Some? then DetailText(detail.value.visitTime) else "";
    if |text| > 0 then text else FallbackVisitTime(p, index)
  }

  /** One place after the merge loop of `_fill_place_details_with_llm`. */
  function MergePlace(p: Place, index: nat, dayNumber: int, detailMap: map<(int, int), DetailSlot>,
                      planned: bool): Place
  {
    var detail := DetailFor(p, dayNumber, detailMap);
    var text := if detail.Some? then DetailText(detail.value.description) else "";
    p.(description := if |text| > 0 then text else if |p.description| == 0 then FallbackDescription(p) else p.description,
       visitTime := if planned then Some(MergedVisitTime(p, index, detail)) else p.visitTime,
       section := None)
  }

  /** The first `n` places of a day after the merge. */
  function MergedPlaces(ps: seq<Place>, n: nat, dayNumber: int, detailMap: map<(int, int), DetailSlot>,
                        planned: bool): (r: seq<Place>)
    requires n <= |ps|
    ensures |r| == n
  {
    if n == 0 then []
    else MergedPlaces(ps, n - 1, dayNumber, detailMap, planned) + [MergePlace(ps[n - 1], n - 1, dayNumber, detailMap, planned)]
  }

  /** Place `i` of the merged places is the merge of place `i`, at its index. */
  lemma {:induction false} MergedPlacesAt(ps: seq<Place>, n: nat, dayNumber: int, detailMap: map<(int, int), DetailSlot>,
                                          planned: bool)
    requires n <= |ps|
    ensures forall i :: 0 <= i < n ==>
      MergedPlaces(ps, n, dayNumber, detailMap, planned)[i] == MergePlace(ps[i], i, dayNumber, detailMap, planned)
    decreases n
  {
    hide MergePlace;
    if n > 0 {
      MergedPlacesAt(ps, n - 1, dayNumber, detailMap, planned);
    }
  }

  /** One day after the merge. */
  function MergedDay(day: Day, detailMap: map<(int, int), DetailSlot>, planned: bool): Day
  {
    day.(places := MergedPlaces(day.places, |day.places|, day.dayNumber, detailMap, planned))
  }

  /** The first `n` days after the merge. */
  function MergedDays(days: seq<Day>, n: nat, detailMap: map<(int, int), DetailSlot>, planned: bool): (r: seq<Day>)
    requires n <= |days|
    ensures |r| == n
  {
    if n == 0 then []
    else MergedDays(days, n - 1, detailMap, planned) + [MergedDay(days[n - 1], detailMap, planned)]
  }

  /** Day `d` of the merged days is the merge of day `d`. */
  lemma {:induction false} MergedDaysAt(days: seq<Day>, n: nat, detailMap: map<(int, int), DetailSlot>, planned: bool)
    requires n <= |days|
    ensures forall d :: 0 <= d < n ==> MergedDays(days, n, detailMap, planned)[d] == MergedDay(days[d], detailMap, planned)
    decreases n
  {
    hide MergedDay;
    if n > 0 {
      MergedDaysAt(days, n - 1, detailMap, planned);
    }
  }

  /** The merge loop on the places of one day. */
  method MergeDay(ps: seq<Place>, dayNumber: int, detailMap: map<(int, int), DetailSlot>, planned: bool)
    returns (out: seq<Place>)
    ensures out == MergedPlaces(ps, |ps|, dayNumber, detailMap, planned)
  {
    out := ps;
    for index := 0 to |ps|
      invariant |out| == |ps|
      invariant forall k :: 0 <= k < index ==> out[k] == MergePlace(ps[k], k, dayNumber, detailMap, planned)
      invariant forall k :: index <= k < |ps| ==> out[k] == ps[k]
    {
      out := out[index := MergePlace(out[index], index, dayNumber, detailMap, planned)];
    }
    MergedPlacesAt(ps, |ps|, dayNumber, detailMap, planned);
  }

  /** The merge loop of `_fill_place_details_with_llm` over all days. */
  method MergeDetails(days: seq<Day>, detailMap: map<(int, int), DetailSlot>, planned: bool)
    returns (out: seq<Day>)
    ensures out == MergedDays(days, |days|, detailMap, planned)
  {
    out := days;
    for d := 0 to |days|
      invariant |out| == |days|
      invariant forall k :: 0 <= k < d ==> out[k] == MergedDay(days[k], detailMap, planned)
      invariant forall k :: d <= k < |days| ==> out[k] == days[k]
    {
      var places := MergeDay(out[d].places, out[d].dayNumber, detailMap, planned);
      out := out[d := out[d].(places := places)];
    }
    MergedDaysAt(days, |days|, detailMap, planned);
    MergedDaysAt(days, |days|, detailMap, planned);
  }

  /** Without any detail the merge does exactly what `_apply_fallback` does. */
  lemma MergeEmptyIsFallback(days: seq<Day>, planned: bool)
    ensures MergedDays(days, |days|, map[], planned) == FallbackDays(days, |days|, planned)
  {
    MergedDaysAt(days, |days|, map[], planned);
    forall d | 0 <= d < |days|
      ensures MergedDay(days[d], map[], planned) == FallbackDay(days[d], planned)
    {
      MergeEmptyDay(days[d], planned);
    }
  }

  lemma MergeEmptyDay(day: Day, planned: bool)
    ensures MergedDay(day, map[], planned) == FallbackDay(day, planned)
  {
    var ps := day.places;
    MergedPlacesAt(ps, |ps|, day.dayNumber, map[], planned);
    forall i | 0 <= i < |ps|
      ensures MergePlace(ps[i], i, day.dayNumber, map[], planned) == FallbackPlace(ps[i], i, planned)
    {
    }
  }

  // ---------------------------------------------------------------------
  // `_fill_place_details_with_llm` and `synthesize_final_roadmap`.
  // ---------------------------------------------------------------------

  /**
   * `_fill_place_details_with_llm`: with no place at all, or when the detail
   * reply is missing (timeout, exception, unparsable text) or breaks a
   * `ge=1` bound, the fallbacks; otherwise the merge with `detail_map`.
   */
  function FilledDetails(days: seq<Day>, planned: bool, reply: Option<seq<DetailDay>>): seq<Day>
  {
    if TotalPlaces(days) == 0 || reply.None? || !ValidDetailPlan(reply.value)
    then FallbackDays(days, |days|, planned)
    else MergedDays(days, |days|, DetailMapOf(reply.value, |reply.value|), planned)
  }

  method FillPlaceDetails(days: seq<Day>, planned: bool, reply: Option<seq<DetailDay>>) returns (out: seq<Day>)
    ensures out == FilledDetails(days, planned, reply)
  {
    if TotalPlaces(days) == 0 || reply.None? || !ValidDetailPlan(reply.value) {
      out := ApplyFallback(days, planned);
    } else {
      out := MergeDetails(days, DetailMapOf(reply.value, |reply.value|), planned);
    }
  }

  /** Only the description, the visit time and the section of a place may differ. */
  predicate SameVisit(p: Place, q: Place)
  {
    q == p.(description := q.description, visitTime := q.visitTime, section := q.section)
  }

  /**
   * A place the detail step has finished: it has a description, no section,
   * and in planned mode a non-empty visit time; otherwise its visit time is
   * the one it had.
   */
  predicate Finished(before: Place, after: Place, planned: bool)
  {
    SameVisit(before, after) && |after.description| > 0 && after.section.None?
    && (planned ==> after.visitTime.Some? && |after.visitTime.value| > 0)
    && (!planned ==> after.visitTime == before.visitTime)
  }

  lemma FallbackPlaceFinished(p: Place, index: nat, planned: bool)
    ensures Finished(p, FallbackPlace(p, index, planned), planned)
  {
    FallbackDescriptionShape(p);
  }

  /**
   * After the merge a place keeps a description the LLM gives (stripped) and
   * otherwise its own or the fallback one; in planned mode a blank or missing
   * LLM visit time is replaced by the fallback time.
   */
  lemma MergePlaceFinished(p: Place, index: nat, dayNumber: int, detailMap: map<(int, int), DetailSlot>, planned: bool)
    ensures var q := MergePlace(p, index, dayNumber, detailMap, planned);
      var detail := DetailFor(p, dayNumber, detailMap);
      Finished(p, q, planned)
      && (detail.Some? && |DetailText(detail.value.description)| > 0 ==> q.description == DetailText(detail.value.description))
      && (planned && (detail.None? || |DetailText(detail.value.visitTime)| == 0) ==>
            q.visitTime == Some(FallbackVisitTime(p, index)))
      && (planned && detail.Some? && |DetailText(detail.value.visitTime)| > 0 ==>
            q.visitTime == Some(DetailText(detail.value.visitTime)))
  {
    FallbackDescriptionShape(p);
    FallbackVisitTimeParses(p, index);
  }

  /**
   * Whatever the detail reply, every day keeps its number, date and place
   * count, and every place is finished.
   */
  lemma FilledDetailsFinished(days: seq<Day>, planned: bool, reply: Option<seq<DetailDay>>)
    ensures var r := FilledDetails(days, planned, reply);
      |r| == |days|
      && forall d :: 0 <= d < |days| ==>
           r[d].dayNumber == days[d].dayNumber && r[d].date == days[d].date
           && |r[d].places| == |days[d].places|
           && forall i :: 0 <= i < |days[d].places| ==> Finished(days[d].places[i], r[d].places[i], planned)
  {
    var r := FilledDetails(days, planned, reply);
    if !(TotalPlaces(days) == 0 || reply.None? || !ValidDetailPlan(reply.value)) {
      MergedDaysAt(days, |days|, DetailMapOf(reply.value, |reply.value|), planned);
    }
    forall d, i | 0 <= d < |days| && 0 <= i < |days[d].places|
      ensures Finished(days[d].places[i], r[d].places[i], planned)
    {
      var p := days[d].places[i];
      if TotalPlaces(days) == 0 || reply.None? || !ValidDetailPlan(reply.value) {
        FallbackPlaceFinished(p, i, planned);
      } else {
        MergedPlacesAt(days[d].places, |days[d].places|, days[d].dayNumber, DetailMapOf(reply.value, |reply.value|), planned);
        MergePlaceFinished(p, i, days[d].dayNumber, DetailMapOf(reply.value, |reply.value|), planned);
      }
    }
  }

  /** With no place at all the detail step changes nothing. */
  lemma {:induction false} NoPlacesUnchanged(days: seq<Day>, planned: bool, reply: Option<seq<DetailDay>>)
    requires TotalPlaces(days) == 0
    ensures FilledDetails(days, planned, reply) == days
  {
    var r := FilledDetails(days, planned, reply);
    forall d | 0 <= d < |days| ensures r[d] == days[d] {
      NoPlacesDay(days, d);
    }
  }

  lemma {:induction false} NoPlacesDay(days: seq<Day>, d: nat)
    requires TotalPlaces(days) == 0 && d < |days|
    ensures |days[d].places| == 0
  {
    if d > 0 {
      NoPlacesDay(days[1..], d - 1);
    }
  }

  /**
   * The summary LLM's reply: the call raised, the call answered but the
   * parser rejected the answer, or the parsed output. Each failure carries
   * the text of the exception raised.
   */
  datatype SummaryReply = CallFailed(message: string) | ParseFailed(message: string) | Summarized(summary: LlmSummary)

  /** What the final node receives from outside the state. */
  datatype FinalizeEnv = FinalizeEnv(
    isoDate: int -> string,
    validationDetail: string,
    detailReply: Option<seq<DetailDay>>,
    summaryReply: SummaryReply)

  /** The prefix of every error the node records. */
  const FailurePrefix: string := "최종 로드맵 생성에 실패했습니다: "

  /** What `str()` of the `KeyError` for a missing `trip_days` reads. */
  const MissingTripDays: string := "'trip_days'"

  /** `nights`: one fewer than the trip days, never negative. */
  function Nights(tripDays: int): int
  {
    if tripDays > 0 then tripDays - 1 else 0
  }

  /** `synthesize_final_roadmap`, as a function of the state. */
  function FinalizeState(s: RoadmapState, env: FinalizeEnv): RoadmapState
  {
    if HasError(s) then s
    else match PreparedOf(s, env.isoDate, env.validationDetail)
      case Refused(e) => s.(error := Some(FailurePrefix + ContextErrorText(e)))
      case Prepared(req, days) =>
        var filled := FilledDetails(days, req.planningPreference == Planned, env.detailReply);
        if env.summaryReply.CallFailed? then s.(error := Some(FailurePrefix + env.summaryReply.message))
        else if s.tripDays.None? then s.(error := Some(FailurePrefix + MissingTripDays))
        else match env.summaryReply
          case ParseFailed(message) => s.(error := Some(FailurePrefix + message))
          case Summarized(summary) =>
            var td := s.tripDays.value;
            s.(finalRoadmap := Some(FinalRoadmap(env.isoDate(req.startDate), env.isoDate(req.endDate), td,
                                                 Nights(td), req.peopleCount, summary, filled)))
  }

  /** `synthesize_final_roadmap`. */
  method SynthesizeFinalRoadmap(s: RoadmapState, env: FinalizeEnv) returns (r: RoadmapState)
    ensures r == FinalizeState(s, env)
  {
    if HasError(s) {
      return s;
    }
    var prepared := PrepareFinalContext(s, env.isoDate, env.validationDetail);
    if prepared.Refused? {
      return s.(error := Some(FailurePrefix + ContextErrorText(prepared.error)));
    }
    var req := prepared.request;
    var days := FillPlaceDetails(prepared.days, req.planningPreference == Planned, env.detailReply);
    if env.summaryReply.CallFailed? {
      return s.(error := Some(FailurePrefix + env.summaryReply.message));
    }
    if s.tripDays.None? {
      return s.(error := Some(FailurePrefix + MissingTripDays));
    }
    var td := s.tripDays.value;
    if env.summaryReply.ParseFailed? {
      return s.(error := Some(FailurePrefix + env.summaryReply.message));
    }
    r := s.(finalRoadmap := Some(FinalRoadmap(env.isoDate(req.startDate), env.isoDate(req.endDate), td,
                                              Nights(td), req.peopleCount, env.summaryReply.summary, days)));
  }

  /**
   * The node leaves a state with an error untouched. Otherwise it either
   * stores a final roadmap and changes nothing else, or records an error
   * that starts with the fixed prefix and changes nothing else.
   */
  lemma FinalizeOutcome(s: RoadmapState, env: FinalizeEnv)
    ensures var r := FinalizeState(s, env);
      (HasError(s) ==> r == s)
      && (!HasError(s) ==>
            (r.error == s.error && r.finalRoadmap.Some? && r == s.(finalRoadmap := r.finalRoadmap))
            || (r.error.Some? && r.error != s.error && r == s.(error := r.error)
                && |r.error.value| >= |FailurePrefix| && r.error.value[..|FailurePrefix|] == FailurePrefix))
  {
  }

  /**
   * The failures of the summary step come in the order the node meets
   * them: a failed call is reported whatever the state holds, a missing
   * `trip_days` is reported before the reply is parsed, and the parser's
   * message only when the trip days are there. A roadmap is stored exactly
   * when the reply parsed and the trip days are there.
   */
  lemma SummaryFailureOrder(s: RoadmapState, env: FinalizeEnv)
    requires !HasError(s) && PreparedOf(s, env.isoDate, env.validationDetail).Prepared?
    ensures var r := FinalizeState(s, env);
      (env.summaryReply.CallFailed? ==> r.error == Some(FailurePrefix + env.summaryReply.message))
      && (!env.summaryReply.CallFailed? && s.tripDays.None? ==> r.error == Some(FailurePrefix + MissingTripDays))
      && (env.summaryReply.ParseFailed? && s.tripDays.Some? ==> r.error == Some(FailurePrefix + env.summaryReply.message))
      && (r.error == s.error <==> env.summaryReply.Summarized? && s.tripDays.Some?)
      && (r.error == s.error ==> r.finalRoadmap.Some?)
  {
  }

  /**
   * A day of the final roadmap: the plan day's number and date, places
   * numbered 1..k, each with a description and no section, and in planned
   * mode a non-empty visit time.
   */
  predicate FinishedDay(day: Day, dp: PlanDay, start: int, planned: bool, isoDate: int -> string)
  {
    day.dayNumber == dp.dayNumber
    && day.date == isoDate(start + dp.dayNumber - 1)
    && |day.places| <= |dp.slots|
    && forall j :: 0 <= j < |day.places| ==>
         day.places[j].visitSequence == Some(j + 1) && |day.places[j].description| > 0
         && day.places[j].section.None?
         && (planned ==> day.places[j].visitTime.Some? && |day.places[j].visitTime.value| > 0)
  }

  lemma FilledDayFinished(before: Day, after: Day, dp: PlanDay, start: int, planned: bool, isoDate: int -> string)
    requires NumberedDay(before, dp, start, planned, isoDate)
    requires after.dayNumber == before.dayNumber && after.date == before.date
    requires |after.places| == |before.places|
    requires forall i :: 0 <= i < |before.places| ==> Finished(before.places[i], after.places[i], planned)
    ensures FinishedDay(after, dp, start, planned, isoDate)
  {
    forall j | 0 <= j < |after.places|
      ensures after.places[j].visitSequence == Some(j + 1)
    {
      assert Finished(before.places[j], after.places[j], planned);
    }
  }

  /**
   * When the node stores a roadmap, it carries the trip days with `nights`
   * one fewer (0 for no days), the request's dates, and one finished day per
   * plan day.
   */
  lemma FinalizeRoadmap(s: RoadmapState, env: FinalizeEnv)
    ensures var r := FinalizeState(s, env);
      !HasError(s) && r.error == s.error ==>
        var f := r.finalRoadmap.value;
        var req := PreparedOf(s, env.isoDate, env.validationDetail).request;
        var plan := s.skeletonPlan.value;
        s.tripDays.Some? && f.tripDays == s.tripDays.value
        && (f.tripDays >= 1 ==> f.nights == f.tripDays - 1) && (f.tripDays < 1 ==> f.nights == 0)
        && f.startDate == env.isoDate(req.startDate) && f.endDate == env.isoDate(req.endDate)
        && |f.itinerary| == |plan|
        && forall d :: 0 <= d < |plan| ==>
             FinishedDay(f.itinerary[d], plan[d], req.startDate, req.planningPreference == Planned, env.isoDate)
  {
    var r := FinalizeState(s, env);
    if !HasError(s) && r.error == s.error {
      FinalizeOutcome(s, env);
      var prepared := PreparedOf(s, env.isoDate, env.validationDetail);
      var planned := prepared.request.planningPreference == Planned;
      var plan := s.skeletonPlan.value;
      ContextDays(s, env.isoDate, env.validationDetail);
      var filled := FilledDetails(prepared.days, planned, env.detailReply);
      assert r.finalRoadmap.value.itinerary == filled;
      FilledDetailsFinished(prepared.days, planned, env.detailReply);
      forall d | 0 <= d < |plan|
        ensures FinishedDay(filled[d], plan[d], prepared.request.startDate, planned, env.isoDate)
      {
        FilledDayFinished(prepared.days[d], filled[d], plan[d], prepared.request.startDate, planned, env.isoDate);
      }
    }
  }
}
