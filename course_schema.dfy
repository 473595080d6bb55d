/**
 * The course request and itinerary schemas (`app/schemas/course.py`) as
 * validators from the raw values Pydantic receives to the validated model,
 * `None` standing for the `ValidationError`. Dates are day numbers (days
 * since a fixed epoch), so a date plus `timedelta(days=k)` is a sum and the
 * `.days` of a difference is a subtraction. `app/schemas/enums.py` is not
 * part of this model: the enumerations the roadmap reads are declared here,
 * and the members of the others are checked by one flag.
 */
module CourseSchema {
  import opened Wrappers
  import Itinerary

  /** `PacePreference`: only DENSE and RELAXED are told apart by the code. */
  datatype PacePreference = Dense | Relaxed | OtherPace

  /** `BudgetRange`. */
  datatype BudgetRange = Low | Mid | High | Luxury

  /** A raw enumeration field: one of the members, or a text that is the value of none of them. */
  datatype RawEnum<E> = Member(member: E) | NonMember(text: string)

  /** A destination segment of the trip: its region and its first and last day. */
  datatype RegionRange = RegionRange(region: string, startDate: int, endDate: int)

  /**
   * The request dict as `model_validate` receives it: each field `None` when
   * it is missing or does not convert to its type. `otherFieldsValid` says
   * whether `region`, `companion_type`, the members of `travel_themes`, the
   * destination, activity and priority preferences and `notes` pass their
   * checks. `regions` is the list of destination segments the roadmap nodes
   * read from the request.
   */
  datatype RawCourseRequest = RawCourseRequest(
    startDate: Option<int>,
    endDate: Option<int>,
    peopleCount: Option<int>,
    travelThemes: Option<seq<string>>,
    pacePreference: Option<RawEnum<PacePreference>>,
    planningPreference: Option<RawEnum<Itinerary.PlanningPreference>>,
    budgetRange: Option<RawEnum<BudgetRange>>,
    regions: Option<seq<RegionRange>>,
    otherFieldsValid: bool)

  /** A validated `CourseRequest`. */
  datatype CourseRequest = CourseRequest(
    startDate: int,
    endDate: int,
    peopleCount: int,
    travelThemes: seq<string>,
    pacePreference: PacePreference,
    planningPreference: Itinerary.PlanningPreference,
    budgetRange: BudgetRange,
    regions: seq<RegionRange>)

  /** An enumeration field that is present and one of the members. */
  function MemberOf<E>(raw: Option<RawEnum<E>>): (r: Option<E>)
    ensures r.Some? <==> raw.Some? && raw.value.Member?
    ensures r.Some? ==> raw == Some(Member(r.value))
  {
    if raw.Some? && raw.value.Member? then Some(raw.value.member) else None
  }

  /** `people_count` with `ge=1, le=20`; `validate_people_count` repeats the lower bound. */
  function PeopleCount(raw: Option<int>): (r: Option<int>)
    ensures r.Some? <==> raw.Some? && 1 <= raw.value <= 20
    ensures r.Some? ==> r == raw
  {
    if raw.None? then None
    else if raw.value < 1 || raw.value > 20 then None
    else raw
  }

  /** `travel_themes` with `min_length=1`. */
  function TravelThemes(raw: Option<seq<string>>): (r: Option<seq<string>>)
    ensures r.Some? <==> raw.Some? && |raw.value| >= 1
    ensures r.Some? ==> r == raw
  {
    if raw.Some? && |raw.value| >= 1 then raw else None
  }

  /**
   * `end_date` with `validate_date_range`: an end before a start that
   * validated is rejected; without a valid start there is nothing to compare.
   */
  function EndDate(start: Option<int>, raw: Option<int>): (r: Option<int>)
    ensures r.Some? <==> raw.Some? && (start.None? || start.value <= raw.value)
    ensures r.Some? ==> r == raw
  {
    if raw.None? then None
    else if start.Some? && raw.value < start.value then None
    else raw
  }

  /** `CourseRequest.model_validate`: the request when every field passes, else the validation error. */
  function ValidateCourseRequest(raw: RawCourseRequest): (r: Option<CourseRequest>)
    ensures r.Some? ==> r.value.startDate <= r.value.endDate
    ensures r.Some? ==> 1 <= r.value.peopleCount <= 20 && |r.value.travelThemes| >= 1
  {
    var end := EndDate(raw.startDate, raw.endDate);
    var people := PeopleCount(raw.peopleCount);
    var themes := TravelThemes(raw.travelThemes);
    var pace := MemberOf(raw.pacePreference);
    var planning := MemberOf(raw.planningPreference);
    var budget := MemberOf(raw.budgetRange);
    if raw.otherFieldsValid && raw.startDate.Some? && end.Some? && people.Some? && themes.Some?
       && pace.Some? && planning.Some? && budget.Some? && raw.regions.Some?
    then Some(CourseRequest(raw.startDate.value, end.value, people.value, themes.value,
                            pace.value, planning.value, budget.value, raw.regions.value))
    else None
  }

  /** `model_dump` of a request: every field present with its value. */
  function DumpCourseRequest(req: CourseRequest): RawCourseRequest
  {
    RawCourseRequest(Some(req.startDate), Some(req.endDate), Some(req.peopleCount), Some(req.travelThemes),
                     Some(Member(req.pacePreference)), Some(Member(req.planningPreference)),
                     Some(Member(req.budgetRange)), Some(req.regions), true)
  }

  /**
   * Validation accepts a raw request exactly when its dates are in order, the
   * party has 1 to 20 people, there is a theme and every field is present
   * and of its type; the validated request carries the raw values.
   */
  lemma ValidateCourseRequestSpec(raw: RawCourseRequest)
    ensures var r := ValidateCourseRequest(raw);
      r.Some? <==> (raw.otherFieldsValid && raw.startDate.Some? && raw.endDate.Some?
                    && raw.startDate.value <= raw.endDate.value
                    && raw.peopleCount.Some? && 1 <= raw.peopleCount.value <= 20
                    && raw.travelThemes.Some? && |raw.travelThemes.value| >= 1
                    && MemberOf(raw.pacePreference).Some? && MemberOf(raw.planningPreference).Some?
                    && MemberOf(raw.budgetRange).Some? && raw.regions.Some?)
    ensures var r := ValidateCourseRequest(raw);
      r.Some? ==> DumpCourseRequest(r.value) == raw
  {
  }

  /** A request that satisfies the constraints survives a dump and a validation unchanged. */
  lemma DumpValidateRoundTrip(req: CourseRequest)
    requires req.startDate <= req.endDate && 1 <= req.peopleCount <= 20 && |req.travelThemes| >= 1
    ensures ValidateCourseRequest(DumpCourseRequest(req)) == Some(req)
  {
  }

  /** An end date before the start date, or a party of 0 or 21, is rejected. */
  lemma RejectedRequests(raw: RawCourseRequest)
    requires (raw.startDate.Some? && raw.endDate.Some? && raw.endDate.value < raw.startDate.value)
             || raw.peopleCount == Some(0) || raw.peopleCount == Some(21)
    ensures ValidateCourseRequest(raw).None?
  {
  }

  /** A validated `CoursePlace`. */
  datatype CoursePlace = CoursePlace(placeName: string, placeId: Option<string>, category: string,
                                     visitSequence: int, visitTime: string)

  /** The `CoursePlace` fields as received, `None` when missing. */
  datatype RawCoursePlace = RawCoursePlace(placeName: Option<string>, placeId: Option<string>, category: Option<string>,
                                           visitSequence: Option<int>, visitTime: Option<string>)

  /** `CoursePlace.model_validate`: `visit_sequence` at least 1, `category` required, `place_id` optional. */
  function ValidateCoursePlace(raw: RawCoursePlace): (r: Option<CoursePlace>)
    ensures r.Some? <==> raw.placeName.Some? && raw.category.Some? && raw.visitSequence.Some?
                         && raw.visitSequence.value >= 1 && raw.visitTime.Some?
    ensures r.Some? ==> r.value.visitSequence >= 1 && r.value.placeId == raw.placeId
  {
    if raw.placeName.Some? && raw.category.Some? && raw.visitSequence.Some? && raw.visitSequence.value >= 1
       && raw.visitTime.Some?
    then Some(CoursePlace(raw.placeName.value, raw.placeId, raw.category.value, raw.visitSequence.value, raw.visitTime.value))
    else None
  }

  /** A validated `DailyItinerary`: its day number is at least 1. */
  datatype DailyItinerary = DailyItinerary(dayNumber: int, dailyDate: int, places: seq<CoursePlace>)

  /** `DailyItinerary.model_validate`: a day number of at least 1, a date, and every place valid. */
  function ValidateDailyItinerary(dayNumber: Option<int>, dailyDate: Option<int>, places: seq<RawCoursePlace>)
    : (r: Option<DailyItinerary>)
    ensures r.Some? <==> dayNumber.Some? && dayNumber.value >= 1 && dailyDate.Some?
                         && forall i :: 0 <= i < |places| ==> ValidateCoursePlace(places[i]).Some?
    ensures r.Some? ==> r.value.dayNumber >= 1 && |r.value.places| == |places|
                        && forall i :: 0 <= i < |places| ==> Some(r.value.places[i]) == ValidateCoursePlace(places[i])
  {
    var validated := ValidatePlaces(places);
    if dayNumber.Some? && dayNumber.value >= 1 && dailyDate.Some? && validated.Some?
    then Some(DailyItinerary(dayNumber.value, dailyDate.value, validated.value))
    else None
  }

  /** Every place of the list validated, or `None` when one fails. */
  function ValidatePlaces(places: seq<RawCoursePlace>): (r: Option<seq<CoursePlace>>)
    ensures r.Some? <==> forall i :: 0 <= i < |places| ==> ValidateCoursePlace(places[i]).Some?
    ensures r.Some? ==> |r.value| == |places|
                        && forall i :: 0 <= i < |places| ==> Some(r.value[i]) == ValidateCoursePlace(places[i])
    decreases |places|
  {
    if |places| == 0 then Some([])
    else
      var head := ValidateCoursePlace(places[0]);
      var rest := ValidatePlaces(places[1..]);
      if head.Some? && rest.Some? then
        assert forall i :: 1 <= i < |places| ==> places[i] == places[1..][i - 1];
        Some([head.value] + rest.value)
      else
        assert head.None? ==> ValidateCoursePlace(places[0]).None?;
        assert rest.None? ==> exists i :: 0 <= i < |places[1..]| && ValidateCoursePlace(places[1..][i]).None?;
        None
  }
}
