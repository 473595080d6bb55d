/**
 * The data the itinerary services pass around: a Google Places search hit
 * (`app/schemas/place.py`), a course place as the dict the chat graph edits,
 * a day, and the roadmap that holds the days.
 */
module Itinerary {
  import opened Wrappers

  /** A Places search result: `Place` with its `geometry`. */
  datatype Candidate = Candidate(
    placeId: string,
    name: string,
    address: string,
    latitude: real,
    longitude: real,
    url: string)

  /**
   * One visit of a day as a dict. `visitSequence` holds what `int(visit_sequence)`
   * yields (None when the key is missing or not an integer); `visitTime`,
   * `section` and `sectionHint` are None when the key is absent or None.
   */
  datatype Place = Place(
    placeName: string,
    placeId: string,
    address: string,
    latitude: Option<real>,
    longitude: Option<real>,
    placeUrl: string,
    description: string,
    visitSequence: Option<int>,
    visitTime: Option<string>,
    section: Option<string>,
    sectionHint: Option<string>)

  datatype Day = Day(dayNumber: int, date: string, places: seq<Place>)

  /** The planning mode of a roadmap; only `PLANNED` is distinguished by the code. */
  datatype PlanningPreference = Planned | FreeForm

  /**
   * A roadmap: `planningPreference` is None when the stored value is missing or
   * is not a `PlanningPreference` member; `days` is the `itinerary` list.
   */
  datatype Roadmap = Roadmap(planningPreference: Option<PlanningPreference>, days: seq<Day>)

  /** Whether a place has both coordinates. */
  predicate HasCoordinates(p: Place) { p.latitude.Some? && p.longitude.Some? }

  /** `_find_day`: the position of the first day with the given number. */
  function FindDay(days: seq<Day>, dayNumber: int): (r: Option<nat>)
    ensures r.Some? ==> r.value < |days| && days[r.value].dayNumber == dayNumber
    ensures r.Some? ==> forall j :: 0 <= j < r.value ==> days[j].dayNumber != dayNumber
    ensures r.None? ==> forall j :: 0 <= j < |days| ==> days[j].dayNumber != dayNumber
  {
    if |days| == 0 then None
    else if days[0].dayNumber == dayNumber then Some(0)
    else match FindDay(days[1..], dayNumber)
      case None => None
      case Some(i) => Some(i + 1)
  }

  /** The roadmap with the places of day `i` replaced. */
  function SetDayPlaces(days: seq<Day>, i: nat, ps: seq<Place>): (r: seq<Day>)
    requires i < |days|
    ensures |r| == |days| && r[i] == days[i].(places := ps)
    ensures forall j :: 0 <= j < |days| && j != i ==> r[j] == days[j]
  {
    days[i := days[i].(places := ps)]
  }

  /** The total number of places over all days. */
  function TotalPlaces(days: seq<Day>): nat
  {
    if |days| == 0 then 0 else |days[0].places| + TotalPlaces(days[1..])
  }

  lemma {:induction false} TotalPlacesSet(days: seq<Day>, i: nat, ps: seq<Place>)
    requires i < |days|
    ensures TotalPlaces(SetDayPlaces(days, i, ps)) == TotalPlaces(days) - |days[i].places| + |ps|
  {
    if i > 0 {
      assert SetDayPlaces(days, i, ps)[1..] == SetDayPlaces(days[1..], i - 1, ps);
      TotalPlacesSet(days[1..], i - 1, ps);
    } else {
      assert SetDayPlaces(days, i, ps)[1..] == days[1..];
    }
  }
}
