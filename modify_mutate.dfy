/**
 * The edit node of the older itinerary edit graph
 * (`app/graph/modify/nodes/mutate.py`). Unlike the chat variant it has no
 * 10-place or 1-place limits, performs cross-day MOVEs, and picks the search
 * hit nearest the day's centre: the first one within 10 km of the mean of the
 * day's coordinates. The Places search, the distance function and the LLM
 * reply of the keyword suggestion are parameters.
 */
module ModifyMutate {
  import opened Wrappers
  import opened PyText
  import opened PyList
  import opened Itinerary
  import opened Geo
  import opened ModifyUtils
  import opened ChatSchema
  import opened ModifyGraphState
  import ChatMutate

  const RadiusKm: real := 10.0

  const MissingInputError: string := "mutate에는 intent와 current_itinerary가 필요합니다."
  const NoKeywordError: string := "검색 키워드가 없습니다."
  const SearchFailedError: string := "장소 검색에 실패했습니다."

  function DayMissingError(d: int): string { IntText(d) + "일차를 찾을 수 없습니다." }
  function IndexMissingError(d: int, i: int): string { IntText(d) + "일차에 " + IntText(i) + "번 장소가 없습니다." }

  // ---------------------------------------------------------------- the day's centre

  function RSum(xs: seq<real>): real
    decreases |xs|
  {
    if |xs| == 0 then 0.0 else xs[0] + RSum(xs[1..])
  }

  /** A sum of values between `lo` and `hi` lies between `n * lo` and `n * hi`. */
  lemma {:induction false} RSumBounds(xs: seq<real>, lo: real, hi: real)
    requires forall i :: 0 <= i < |xs| ==> lo <= xs[i] <= hi
    ensures |xs| as real * lo <= RSum(xs) <= |xs| as real * hi
    decreases |xs|
  {
    if |xs| > 0 {
      RSumBounds(xs[1..], lo, hi);
      assert (|xs| - 1) as real * lo + lo == |xs| as real * lo;
      assert (|xs| - 1) as real * hi + hi == |xs| as real * hi;
    }
  }

  /** `_day_center`: the mean latitude and longitude of the places that have both; (0, 0) when none has. */
  function DayCenter(places: seq<Place>): (c: (real, real))
    ensures |ChatMutate.DayPointsOf(places)| == 0 ==> c == (0.0, 0.0)
  {
    var pts := ChatMutate.DayPointsOf(places);
    if |pts| == 0 then (0.0, 0.0)
    else (RSum(Lats(pts)) / |pts| as real, RSum(Lngs(pts)) / |pts| as real)
  }

  /** The mean of values between `lo` and `hi` lies between them. */
  lemma MeanBetween(xs: seq<real>, lo: real, hi: real)
    requires |xs| > 0 && forall i :: 0 <= i < |xs| ==> lo <= xs[i] <= hi
    ensures lo <= RSum(xs) / |xs| as real <= hi
  {
    RSumBounds(xs, lo, hi);
    DivBounds(RSum(xs), |xs| as real, lo, hi);
  }

  lemma DivBounds(s: real, n: real, lo: real, hi: real)
    requires n > 0.0 && n * lo <= s <= n * hi
    ensures lo <= s / n <= hi
  {
    assert (s / n) * n == s;
  }

  /** The centre of a day with coordinates lies between the smallest and the largest of each coordinate. */
  lemma DayCenterBetween(places: seq<Place>)
    requires |ChatMutate.DayPointsOf(places)| > 0
    ensures var pts := ChatMutate.DayPointsOf(places); var c := DayCenter(places);
      MinOf(Lats(pts)) <= c.0 <= MaxOf(Lats(pts)) && MinOf(Lngs(pts)) <= c.1 <= MaxOf(Lngs(pts))
  {
    var pts := ChatMutate.DayPointsOf(places);
    MeanBetween(Lats(pts), MinOf(Lats(pts)), MaxOf(Lats(pts)));
    MeanBetween(Lngs(pts), MinOf(Lngs(pts)), MaxOf(Lngs(pts)));
  }

  /** The centre of a day whose places all stand at one point is that point. */
  lemma DayCenterOfOnePoint(places: seq<Place>, lat: real, lng: real)
    requires |ChatMutate.DayPointsOf(places)| > 0
    requires forall j :: 0 <= j < |places| && HasCoordinates(places[j]) ==> places[j].latitude == Some(lat) && places[j].longitude == Some(lng)
    ensures DayCenter(places) == (lat, lng)
  {
    var pts := ChatMutate.DayPointsOf(places);
    DayPointsAt(places, lat, lng);
    DayCenterBetween(places);
  }

  lemma {:induction false} DayPointsAt(places: seq<Place>, lat: real, lng: real)
    requires forall j :: 0 <= j < |places| && HasCoordinates(places[j]) ==> places[j].latitude == Some(lat) && places[j].longitude == Some(lng)
    ensures forall i :: 0 <= i < |ChatMutate.DayPointsOf(places)| ==> ChatMutate.DayPointsOf(places)[i] == (lat, lng)
    decreases |places|
  {
    if |places| > 0 {
      DayPointsAt(places[..|places| - 1], lat, lng);
    }
  }

  // ---------------------------------------------------------------- the search

  /** `service.search(keyword)`; None when it raises. */
  type KeywordSearch = string -> Option<seq<Candidate>>

  datatype ModifySearchEnv = ModifySearchEnv(search: KeywordSearch, dist: Distance, suggestReply: Option<string>)

  /** A hit within `RadiusKm` of the centre. */
  predicate Near(dist: Distance, center: (real, real), p: Candidate)
  {
    dist(center.0, center.1, p.latitude, p.longitude) <= RadiusKm
  }

  /** The hits within `RadiusKm` of the centre, in their order. */
  function WithinRadius(results: seq<Candidate>, center: (real, real), dist: Distance): (r: seq<Candidate>)
    ensures |r| <= |results|
    ensures forall i :: 0 <= i < |r| ==> Near(dist, center, r[i])
    decreases |results|
  {
    if |results| == 0 then []
    else if Near(dist, center, results[0]) then [results[0]] + WithinRadius(results[1..], center, dist)
    else WithinRadius(results[1..], center, dist)
  }

  /** The position of the first hit within the radius. */
  function FirstNear(results: seq<Candidate>, center: (real, real), dist: Distance): (k: Option<nat>)
    ensures k.Some? ==> k.value < |results| && Near(dist, center, results[k.value])
    ensures k.Some? ==> forall j :: 0 <= j < k.value ==> !Near(dist, center, results[j])
    ensures k.None? ==> forall j :: 0 <= j < |results| ==> !Near(dist, center, results[j])
  {
    if |results| == 0 then None
    else if Near(dist, center, results[0]) then Some(0)
    else match FirstNear(results[1..], center, dist)
      case None => None
      case Some(i) => Some(i + 1)
  }

  /** The filtered list is empty exactly when no hit is near, and otherwise starts with the first near one. */
  lemma {:induction false} WithinRadiusFirst(results: seq<Candidate>, center: (real, real), dist: Distance)
    ensures var k := FirstNear(results, center, dist); var f := WithinRadius(results, center, dist);
      (k.None? <==> |f| == 0) && (k.Some? ==> f[0] == results[k.value])
    decreases |results|
  {
    if |results| > 0 && !Near(dist, center, results[0]) {
      WithinRadiusFirst(results[1..], center, dist);
    }
  }

  /**
   * The hits the choice is made from: the ones within the radius when the
   * centre is not (0, 0) and any is within it, else all of them.
   */
  function RadiusFiltered(results: seq<Candidate>, places: seq<Place>, dist: Distance): (r: seq<Candidate>)
    ensures |results| > 0 ==> |r| > 0
  {
    var c := DayCenter(places);
    if c.0 != 0.0 || c.1 != 0.0 then
      var filtered := WithinRadius(results, c, dist);
      if |filtered| > 0 then filtered else results
    else results
  }

  function NoResultsSummary(keyword: string, suggested: Option<string>): string
  {
    "'" + keyword + "' 검색 결과가 없습니다."
    + (if suggested.Some? then " '" + suggested.value + "'(으)로 다시 검색해볼까요?" else "")
  }

  /** `_search_place`: the chosen hit and every hit of the search. */
  function SearchPlace(keyword: Option<string>, places: seq<Place>, env: ModifySearchEnv): (r: ChatMutate.SearchOutcome)
    ensures keyword.None? || |keyword.value| == 0 ==> r == ChatMutate.SearchFailed(NoKeywordError)
    ensures r.NoResults? ==> r.suggested.Some? ==> r.suggested.value != keyword.value
    ensures r.SearchFailed? ==> r.error == NoKeywordError || r.error == SearchFailedError
  {
    if keyword.None? || |keyword.value| == 0 then ChatMutate.SearchFailed(NoKeywordError)
    else
      var kw := keyword.value;
      var results := env.search(kw);
      if results.None? then ChatMutate.SearchFailed(SearchFailedError)
      else if |results.value| == 0 then
        var suggested := ChatMutate.SuggestAlternativeKeyword(kw, env.suggestReply);
        ChatMutate.NoResults(NoResultsSummary(kw, suggested), suggested)
      else ChatMutate.Found(RadiusFiltered(results.value, places, env.dist)[0], results.value)
  }

  /**
   * The hit taken: the first one within 10 km of the day's centre when the
   * centre is not (0, 0) and some hit is that close, else the first hit; every
   * hit is reported as a search result.
   */
  lemma SearchChoosesNearest(keyword: string, places: seq<Place>, env: ModifySearchEnv)
    requires |keyword| > 0 && env.search(keyword).Some? && |env.search(keyword).value| > 0
    ensures var results := env.search(keyword).value; var c := DayCenter(places);
      var k := FirstNear(results, c, env.dist); var r := SearchPlace(Some(keyword), places, env);
      r.Found? && r.results == results
      && ((c.0 != 0.0 || c.1 != 0.0) && k.Some? ==> r.place == results[k.value])
      && (!((c.0 != 0.0 || c.1 != 0.0) && k.Some?) ==> r.place == results[0])
  {
    WithinRadiusFirst(env.search(keyword).value, DayCenter(places), env.dist);
  }

  // ---------------------------------------------------------------- the edit

  /** `_place_to_course_place`: a fresh visit named after the hit, with a blank `visit_time`. */
  function PlaceToCoursePlace(c: Candidate, visitSequence: int): (p: Place)
    ensures p.placeId == c.placeId && p.placeName == c.name && p.description == c.name
    ensures p.address == c.address && p.placeUrl == c.url
    ensures p.latitude == Some(c.latitude) && p.longitude == Some(c.longitude)
    ensures p.visitSequence == Some(visitSequence) && p.visitTime == Some("")
    ensures p.section.None? && p.sectionHint.None?
  {
    Place(c.name, c.placeId, c.address, Some(c.latitude), Some(c.longitude), c.url, c.name, Some(visitSequence), Some(""), None, None)
  }


  function Fail(s: ModifyState, e: string): ModifyState { s.(error := Some(e)) }

  /** The state returned when the search did not produce a place. */
  function SearchStopped(s: ModifyState, o: ChatMutate.SearchOutcome): ModifyState
    requires !o.Found?
  {
    match o
    case SearchFailed(e) => s.(searchResults := [], error := Some(e))
    case NoResults(summary, suggested) =>
      s.(searchResults := [], status := Some(AskClarification), changeSummary := summary, suggestedKeyword := suggested)
  }

  /** The state after an edit that produced the days `days`. */
  function Edited(s: ModifyState, roadmap: Roadmap, days: seq<Day>, key: string, results: seq<Candidate>): ModifyState
  {
    s.(modifiedItinerary := Some(roadmap.(days := days)), diffKeys := [key], searchResults := results)
  }

  function ReplaceStep(s: ModifyState, env: ModifySearchEnv, it: ModifyIntent, roadmap: Roadmap, di: nat): ModifyState
    requires di < |roadmap.days| && 0 <= it.targetIndex - 1 < |roadmap.days[di].places|
  {
    var places := roadmap.days[di].places;
    var o := SearchPlace(it.searchKeyword, places, env);
    if !o.Found? then SearchStopped(s, o)
    else Edited(s, roadmap, SetDayPlaces(roadmap.days, di, places[it.targetIndex - 1 := PlaceToCoursePlace(o.place, it.targetIndex)]),
                BuildDiffKey(it.targetDay, it.targetIndex), o.results)
  }

  /** The slot an ADD names, `min(target_index - 1, len)`, before `insert` interprets it. */
  function AddPos(it: ModifyIntent, places: seq<Place>): int { Min(it.targetIndex - 1, |places|) }

  function AddStep(s: ModifyState, env: ModifySearchEnv, it: ModifyIntent, roadmap: Roadmap, di: nat): ModifyState
    requires di < |roadmap.days|
  {
    var places := roadmap.days[di].places;
    var insertPos := AddPos(it, places);
    var o := SearchPlace(it.searchKeyword, places, env);
    if !o.Found? then SearchStopped(s, o)
    else Edited(s, roadmap, SetDayPlaces(roadmap.days, di, WithInserted(places, InsertPosition(insertPos, |places|), PlaceToCoursePlace(o.place, 0))),
                BuildDiffKey(it.targetDay, insertPos + 1), o.results)
  }

  function RemoveStep(s: ModifyState, it: ModifyIntent, roadmap: Roadmap, di: nat): ModifyState
    requires di < |roadmap.days| && 0 <= it.targetIndex - 1 < |roadmap.days[di].places|
  {
    var places := roadmap.days[di].places;
    Edited(s, roadmap, SetDayPlaces(roadmap.days, di, Renumbered(RemoveAt(places, it.targetIndex - 1))),
           BuildDiffKey(it.targetDay, it.targetIndex), [])
  }

  /** `intent.get("destination_day", target_day)` and `intent.get("destination_index", 1)`. */
  function DestDay(it: ModifyIntent): int { it.destinationDay.GetOr(it.targetDay) }
  function DestIndex(it: ModifyIntent): int { it.destinationIndex.GetOr(1) }

  /** The slot a MOVE names in a list of length `n`, `min(dest_index - 1, n)`. */
  function MovePos(it: ModifyIntent, n: nat): int { Min(DestIndex(it) - 1, n) }

  /** The day's places after a same-day MOVE of the place the intent names. */
  function SameDayPlaces(places: seq<Place>, it: ModifyIntent): seq<Place>
    requires 0 <= it.targetIndex - 1 < |places|
  {
    WithMoved(places, it.targetIndex - 1, InsertPosition(MovePos(it, |places| - 1), |places| - 1))
  }

  function SameDayMove(s: ModifyState, it: ModifyIntent, roadmap: Roadmap, di: nat): ModifyState
    requires di < |roadmap.days| && 0 <= it.targetIndex - 1 < |roadmap.days[di].places|
  {
    var places := roadmap.days[di].places;
    Edited(s, roadmap, SetDayPlaces(roadmap.days, di, SameDayPlaces(places, it)),
           BuildDiffKey(it.targetDay, MovePos(it, |places| - 1) + 1), [])
  }

  /** The days after moving place `pos` of day `di` into day `dj` at the slot `destPos` names. */
  function CrossDayDays(days: seq<Day>, di: nat, pos: nat, dj: nat, destPos: int): (r: seq<Day>)
    requires di < |days| && dj < |days| && di != dj && pos < |days[di].places|
    ensures |r| == |days|
  {
    var src := days[di].places;
    var dst := days[dj].places;
    var afterSource := SetDayPlaces(days, di, Renumbered(RemoveAt(src, pos)));
    SetDayPlaces(afterSource, dj, WithInserted(dst, InsertPosition(destPos, |dst|), src[pos]))
  }

  function CrossDayMove(s: ModifyState, it: ModifyIntent, roadmap: Roadmap, di: nat): ModifyState
    requires di < |roadmap.days| && 0 <= it.targetIndex - 1 < |roadmap.days[di].places|
    requires DestDay(it) != it.targetDay && roadmap.days[di].dayNumber == it.targetDay
  {
    var found := FindDay(roadmap.days, DestDay(it));
    if found.None? then Fail(s, DayMissingError(DestDay(it)))
    else
      var dj := found.value;
      var destPos := MovePos(it, |roadmap.days[dj].places|);
      Edited(s, roadmap, CrossDayDays(roadmap.days, di, it.targetIndex - 1, dj, destPos), BuildDiffKey(DestDay(it), destPos + 1), [])
  }

  function MoveStep(s: ModifyState, it: ModifyIntent, roadmap: Roadmap, di: nat): ModifyState
    requires di < |roadmap.days| && 0 <= it.targetIndex - 1 < |roadmap.days[di].places|
    requires roadmap.days[di].dayNumber == it.targetDay
  {
    if DestDay(it) == it.targetDay then SameDayMove(s, it, roadmap, di) else CrossDayMove(s, it, roadmap, di)
  }

  /** What the older graph's `mutate` returns for a state. */
  function ModifyMutateNode(s: ModifyState, env: ModifySearchEnv): (r: ModifyState)
    ensures r.currentItinerary == s.currentItinerary && r.intent == s.intent && r.warnings == s.warnings
  {
    if s.intent.None? || s.currentItinerary.None? then Fail(s, MissingInputError)
    else
      var it := s.intent.value;
      var roadmap := s.currentItinerary.value;
      var found := FindDay(roadmap.days, it.targetDay);
      if found.None? then Fail(s, DayMissingError(it.targetDay))
      else
        var di := found.value;
        var places := roadmap.days[di].places;
        if !it.op.Add? && !(0 <= it.targetIndex - 1 < |places|) then Fail(s, IndexMissingError(it.targetDay, it.targetIndex))
        else match it.op
          case Replace => ReplaceStep(s, env, it, roadmap, di)
          case Add => AddStep(s, env, it, roadmap, di)
          case Remove => RemoveStep(s, it, roadmap, di)
          case Move => MoveStep(s, it, roadmap, di)
  }

  // ---------------------------------------------------------------- the node, step by step

  method ApplyReplace(s: ModifyState, env: ModifySearchEnv, it: ModifyIntent, itinerary: Roadmap, di: nat) returns (r: ModifyState)
    requires di < |itinerary.days| && 0 <= it.targetIndex - 1 < |itinerary.days[di].places|
    ensures r == ReplaceStep(s, env, it, itinerary, di)
  {
    var places := itinerary.days[di].places;
    var o := SearchPlace(it.searchKeyword, places, env);
    if !o.Found? {
      return SearchStopped(s, o);
    }
    places := places[it.targetIndex - 1 := PlaceToCoursePlace(o.place, it.targetIndex)];
    return Edited(s, itinerary, SetDayPlaces(itinerary.days, di, places), BuildDiffKey(it.targetDay, it.targetIndex), o.results);
  }

  method ApplyAdd(s: ModifyState, env: ModifySearchEnv, it: ModifyIntent, itinerary: Roadmap, di: nat) returns (r: ModifyState)
    requires di < |itinerary.days|
    ensures r == AddStep(s, env, it, itinerary, di)
  {
    var places := itinerary.days[di].places;
    var insertPos := Min(it.targetIndex - 1, |places|);
    var o := SearchPlace(it.searchKeyword, places, env);
    if !o.Found? {
      return SearchStopped(s, o);
    }
    places := Insert(places, InsertPosition(insertPos, |places|), PlaceToCoursePlace(o.place, 0));
    places := ReorderVisitSequence(places);
    assert places == WithInserted(itinerary.days[di].places, InsertPosition(insertPos, |itinerary.days[di].places|), PlaceToCoursePlace(o.place, 0));
    return Edited(s, itinerary, SetDayPlaces(itinerary.days, di, places), BuildDiffKey(it.targetDay, insertPos + 1), o.results);
  }

  method ApplyRemove(s: ModifyState, it: ModifyIntent, itinerary: Roadmap, di: nat) returns (r: ModifyState)
    requires di < |itinerary.days| && 0 <= it.targetIndex - 1 < |itinerary.days[di].places|
    ensures r == RemoveStep(s, it, itinerary, di)
  {
    var places := itinerary.days[di].places;
    places := RemoveAt(places, it.targetIndex - 1);
    places := ReorderVisitSequence(places);
    return Edited(s, itinerary, SetDayPlaces(itinerary.days, di, places), BuildDiffKey(it.targetDay, it.targetIndex), []);
  }

  method ApplyMove(s: ModifyState, it: ModifyIntent, itinerary: Roadmap, di: nat) returns (r: ModifyState)
    requires di < |itinerary.days| && 0 <= it.targetIndex - 1 < |itinerary.days[di].places|
    requires itinerary.days[di].dayNumber == it.targetDay
    ensures r == MoveStep(s, it, itinerary, di)
  {
    if DestDay(it) != it.targetDay {
      r := ApplyCrossDayMove(s, it, itinerary, di);
    } else {
      r := ApplySameDayMove(s, it, itinerary, di);
    }
  }

  /** A MOVE within the day: pop, clamp the slot to the shortened list, insert and renumber. */
  method ApplySameDayMove(s: ModifyState, it: ModifyIntent, itinerary: Roadmap, di: nat) returns (r: ModifyState)
    requires di < |itinerary.days| && 0 <= it.targetIndex - 1 < |itinerary.days[di].places|
    ensures r == SameDayMove(s, it, itinerary, di)
  {
    var places, destPos := MovePlace(itinerary.days[di].places, it);
    return Edited(s, itinerary, SetDayPlaces(itinerary.days, di, places), BuildDiffKey(it.targetDay, destPos + 1), []);
  }

  /** Pop the place the intent names, clamp `dest_index - 1` to the shortened list, insert there and renumber. */
  method MovePlace(places: seq<Place>, it: ModifyIntent) returns (r: seq<Place>, destPos: int)
    requires 0 <= it.targetIndex - 1 < |places|
    ensures destPos == MovePos(it, |places| - 1)
    ensures r == SameDayPlaces(places, it)
  {
    var moved := places[it.targetIndex - 1];
    var rest := RemoveAt(places, it.targetIndex - 1);
    destPos := Min(DestIndex(it) - 1, |rest|);
    r := Insert(rest, InsertPosition(destPos, |rest|), moved);
    r := ReorderVisitSequence(r);
  }

  /** A MOVE to another day: pop and renumber the source, then insert into and renumber the destination. */
  method ApplyCrossDayMove(s: ModifyState, it: ModifyIntent, itinerary: Roadmap, di: nat) returns (r: ModifyState)
    requires di < |itinerary.days| && 0 <= it.targetIndex - 1 < |itinerary.days[di].places|
    requires DestDay(it) != it.targetDay && itinerary.days[di].dayNumber == it.targetDay
    ensures r == CrossDayMove(s, it, itinerary, di)
  {
    var destDayNum := DestDay(it);
    var found := FindDay(itinerary.days, destDayNum);
    if found.None? {
      return Fail(s, DayMissingError(destDayNum));
    }
    var dj := found.value;
    var places := itinerary.days[di].places;
    var moved := places[it.targetIndex - 1];
    places := RemoveAt(places, it.targetIndex - 1);
    places := ReorderVisitSequence(places);
    var destPlaces := itinerary.days[dj].places;
    var destPos := Min(DestIndex(it) - 1, |destPlaces|);
    destPlaces := Insert(destPlaces, InsertPosition(destPos, |destPlaces|), moved);
    destPlaces := ReorderVisitSequence(destPlaces);
    assert destPlaces == WithInserted(itinerary.days[dj].places, InsertPosition(destPos, |itinerary.days[dj].places|), moved);
    var days := SetDayPlaces(SetDayPlaces(itinerary.days, di, places), dj, destPlaces);
    return Edited(s, itinerary, days, BuildDiffKey(destDayNum, destPos + 1), []);
  }

  /** The older graph's `mutate`, editing the copied day's place list step by step. */
  method ModifyMutate(s: ModifyState, env: ModifySearchEnv) returns (r: ModifyState)
    ensures r == ModifyMutateNode(s, env)
  {
    if s.intent.None? || s.currentItinerary.None? {
      return Fail(s, MissingInputError);
    }
    var it := s.intent.value;
    var itinerary := s.currentItinerary.value;
    var found := FindDay(itinerary.days, it.targetDay);
    if found.None? {
      return Fail(s, DayMissingError(it.targetDay));
    }
    var di := found.value;
    var targetPos := it.targetIndex - 1;
    if it.op != Add && (targetPos < 0 || targetPos >= |itinerary.days[di].places|) {
      return Fail(s, IndexMissingError(it.targetDay, it.targetIndex));
    }
    match it.op {
      case Replace => r := ApplyReplace(s, env, it, itinerary, di);
      case Add => r := ApplyAdd(s, env, it, itinerary, di);
      case Remove => r := ApplyRemove(s, it, itinerary, di);
      case Move => r := ApplyMove(s, it, itinerary, di);
    }
  }

  // ---------------------------------------------------------------- what an edit guarantees

  /** The intent names a day of the current itinerary. */
  predicate Targeted(s: ModifyState)
  {
    s.intent.Some? && s.currentItinerary.Some? && FindDay(s.currentItinerary.value.days, s.intent.value.targetDay).Some?
  }

  function TargetPos(s: ModifyState): (di: nat)
    requires Targeted(s)
    ensures di < |s.currentItinerary.value.days|
  {
    FindDay(s.currentItinerary.value.days, s.intent.value.targetDay).value
  }

  function PlacesBefore(s: ModifyState): seq<Place>
    requires Targeted(s)
  {
    s.currentItinerary.value.days[TargetPos(s)].places
  }

  /** The node stopped without editing: an error or a question back to the user, and nothing else touched. */
  predicate Stopped(s: ModifyState, r: ModifyState)
  {
    r.(error := s.error, status := s.status, changeSummary := s.changeSummary,
       suggestedKeyword := s.suggestedKeyword, searchResults := s.searchResults) == s
    && ((r.error.Some? && |r.error.value| > 0) || r.status == Some(AskClarification))
  }

  /**
   * The node edited the itinerary: only place lists change, only those of the
   * target day and of a day numbered as the MOVE destination, one diff key is
   * written, and nothing else but the search results changes.
   */
  predicate EditOf(s: ModifyState, r: ModifyState)
  {
    Targeted(s) && r.modifiedItinerary.Some?
    && var cur := s.currentItinerary.value; var out := r.modifiedItinerary.value;
    out.planningPreference == cur.planningPreference && |out.days| == |cur.days|
    && (forall k :: 0 <= k < |cur.days| ==> out.days[k] == cur.days[k].(places := out.days[k].places))
    && (forall k :: 0 <= k < |cur.days| && out.days[k].places != cur.days[k].places ==>
          k == TargetPos(s) || cur.days[k].dayNumber == DestDay(s.intent.value))
    && |r.diffKeys| == 1
    && r.(modifiedItinerary := s.modifiedItinerary, diffKeys := s.diffKeys, searchResults := s.searchResults) == s
  }

  /** The arguments the node hands to its per-operation step. */
  predicate StepArgs(s: ModifyState, it: ModifyIntent, roadmap: Roadmap, di: nat)
  {
    s.intent == Some(it) && s.currentItinerary == Some(roadmap) && FindDay(roadmap.days, it.targetDay) == Some(di)
  }

  lemma SearchStoppedIsStop(s: ModifyState, keyword: Option<string>, places: seq<Place>, env: ModifySearchEnv)
    requires !SearchPlace(keyword, places, env).Found?
    ensures Stopped(s, SearchStopped(s, SearchPlace(keyword, places, env)))
  {
  }

  lemma EditedOne(s: ModifyState, roadmap: Roadmap, di: nat, ps: seq<Place>, key: string, results: seq<Candidate>)
    requires s.intent.Some? && StepArgs(s, s.intent.value, roadmap, di)
    ensures EditOf(s, Edited(s, roadmap, SetDayPlaces(roadmap.days, di, ps), key, results))
  {
  }

  lemma ReplaceOutcome(s: ModifyState, env: ModifySearchEnv, it: ModifyIntent, roadmap: Roadmap, di: nat)
    requires StepArgs(s, it, roadmap, di) && 0 <= it.targetIndex - 1 < |roadmap.days[di].places|
    ensures Stopped(s, ReplaceStep(s, env, it, roadmap, di)) || EditOf(s, ReplaceStep(s, env, it, roadmap, di))
  {
    var places := roadmap.days[di].places;
    var o := SearchPlace(it.searchKeyword, places, env);
    if o.Found? {
      EditedOne(s, roadmap, di, places[it.targetIndex - 1 := PlaceToCoursePlace(o.place, it.targetIndex)], BuildDiffKey(it.targetDay, it.targetIndex), o.results);
    } else {
      SearchStoppedIsStop(s, it.searchKeyword, places, env);
    }
  }

  lemma AddOutcome(s: ModifyState, env: ModifySearchEnv, it: ModifyIntent, roadmap: Roadmap, di: nat)
    requires StepArgs(s, it, roadmap, di)
    ensures Stopped(s, AddStep(s, env, it, roadmap, di)) || EditOf(s, AddStep(s, env, it, roadmap, di))
  {
    var places := roadmap.days[di].places;
    var o := SearchPlace(it.searchKeyword, places, env);
    if o.Found? {
      var ps := WithInserted(places, InsertPosition(AddPos(it, places), |places|), PlaceToCoursePlace(o.place, 0));
      EditedOne(s, roadmap, di, ps, BuildDiffKey(it.targetDay, AddPos(it, places) + 1), o.results);
    } else {
      SearchStoppedIsStop(s, it.searchKeyword, places, env);
    }
  }

  lemma RemoveOutcome(s: ModifyState, it: ModifyIntent, roadmap: Roadmap, di: nat)
    requires StepArgs(s, it, roadmap, di) && 0 <= it.targetIndex - 1 < |roadmap.days[di].places|
    ensures EditOf(s, RemoveStep(s, it, roadmap, di))
  {
    EditedOne(s, roadmap, di, Renumbered(RemoveAt(roadmap.days[di].places, it.targetIndex - 1)), BuildDiffKey(it.targetDay, it.targetIndex), []);
  }

  lemma SameDayOutcome(s: ModifyState, it: ModifyIntent, roadmap: Roadmap, di: nat)
    requires StepArgs(s, it, roadmap, di) && 0 <= it.targetIndex - 1 < |roadmap.days[di].places|
    ensures EditOf(s, SameDayMove(s, it, roadmap, di))
  {
    var places := roadmap.days[di].places;
    var d := MovePos(it, |places| - 1);
    EditedOne(s, roadmap, di, SameDayPlaces(places, it), BuildDiffKey(it.targetDay, d + 1), []);
  }

  lemma CrossDayOutcome(s: ModifyState, it: ModifyIntent, roadmap: Roadmap, di: nat)
    requires StepArgs(s, it, roadmap, di) && 0 <= it.targetIndex - 1 < |roadmap.days[di].places|
    requires DestDay(it) != it.targetDay
    ensures var r := CrossDayMove(s, it, roadmap, di); Stopped(s, r) || EditOf(s, r)
  {
  }

  /** The node hands a targeted request with a usable index to its operation's step. */
  lemma NodeSteps(s: ModifyState, env: ModifySearchEnv)
    requires Targeted(s)
    requires s.intent.value.op.Add? || 1 <= s.intent.value.targetIndex <= |PlacesBefore(s)|
    ensures var it := s.intent.value; var roadmap := s.currentItinerary.value; var di := TargetPos(s);
      && (it.op.Replace? ==> ModifyMutateNode(s, env) == ReplaceStep(s, env, it, roadmap, di))
      && (it.op.Add? ==> ModifyMutateNode(s, env) == AddStep(s, env, it, roadmap, di))
      && (it.op.Remove? ==> ModifyMutateNode(s, env) == RemoveStep(s, it, roadmap, di))
      && (it.op.Move? && DestDay(it) == it.targetDay ==> ModifyMutateNode(s, env) == SameDayMove(s, it, roadmap, di))
      && (it.op.Move? && DestDay(it) != it.targetDay ==> ModifyMutateNode(s, env) == CrossDayMove(s, it, roadmap, di))
  {
  }

  lemma NodeMovesWithinDay(s: ModifyState, env: ModifySearchEnv)
    requires Targeted(s) && s.intent.value.op.Move? && 1 <= s.intent.value.targetIndex <= |PlacesBefore(s)|
    requires DestDay(s.intent.value) == s.intent.value.targetDay
    ensures ModifyMutateNode(s, env) == SameDayMove(s, s.intent.value, s.currentItinerary.value, TargetPos(s))
  {
    NodeSteps(s, env);
  }

  lemma NodeMovesAcrossDays(s: ModifyState, env: ModifySearchEnv)
    requires Targeted(s) && s.intent.value.op.Move? && 1 <= s.intent.value.targetIndex <= |PlacesBefore(s)|
    requires DestDay(s.intent.value) != s.intent.value.targetDay
    ensures ModifyMutateNode(s, env) == CrossDayMove(s, s.intent.value, s.currentItinerary.value, TargetPos(s))
  {
    NodeSteps(s, env);
  }

  /** Every run of the node either stops untouched or is an edit as `EditOf` describes. */
  lemma ModifyOutcome(s: ModifyState, env: ModifySearchEnv)
    ensures Stopped(s, ModifyMutateNode(s, env)) || EditOf(s, ModifyMutateNode(s, env))
  {
    if Targeted(s) {
      var it := s.intent.value;
      var roadmap := s.currentItinerary.value;
      var di := TargetPos(s);
      if it.op.Add? || 1 <= it.targetIndex <= |PlacesBefore(s)| {
        NodeSteps(s, env);
        match it.op
        case Replace => ReplaceOutcome(s, env, it, roadmap, di);
        case Add => AddOutcome(s, env, it, roadmap, di);
        case Remove => RemoveOutcome(s, it, roadmap, di);
        case Move =>
          if DestDay(it) == it.targetDay {
            SameDayOutcome(s, it, roadmap, di);
          } else {
            CrossDayOutcome(s, it, roadmap, di);
          }
      }
    }
  }

  /** The error each invalid request gets; none of them writes an itinerary. */
  lemma ModifyErrors(s: ModifyState, env: ModifySearchEnv)
    ensures var r := ModifyMutateNode(s, env);
      (s.intent.None? || s.currentItinerary.None? ==> r == s.(error := Some(MissingInputError)))
      && (s.intent.Some? && s.currentItinerary.Some? && !Targeted(s) ==> r == s.(error := Some(DayMissingError(s.intent.value.targetDay))))
      && (Targeted(s) && !s.intent.value.op.Add? && !(1 <= s.intent.value.targetIndex <= |PlacesBefore(s)|) ==>
            r == s.(error := Some(IndexMissingError(s.intent.value.targetDay, s.intent.value.targetIndex))))
      && (Targeted(s) && s.intent.value.op.Move? && 1 <= s.intent.value.targetIndex <= |PlacesBefore(s)|
          && DestDay(s.intent.value) != s.intent.value.targetDay
          && FindDay(s.currentItinerary.value.days, DestDay(s.intent.value)).None? ==>
            r == s.(error := Some(DayMissingError(DestDay(s.intent.value)))))
  {
  }

  /** A REPLACE or ADD without a search keyword fails before any search. */
  lemma ModifyNeedsKeyword(s: ModifyState, env: ModifySearchEnv)
    requires Targeted(s) && (s.intent.value.op.Add? || (s.intent.value.op.Replace? && 1 <= s.intent.value.targetIndex <= |PlacesBefore(s)|))
    requires s.intent.value.searchKeyword.None? || |s.intent.value.searchKeyword.value| == 0
    ensures ModifyMutateNode(s, env) == s.(searchResults := [], error := Some(NoKeywordError))
  {
  }

  /**
   * ADD has no capacity check: whenever the search finds a place, the day
   * grows by one, the chosen hit sits at the slot `insert` uses, the other
   * places keep their order, the day is renumbered, and the key names
   * `min(target_index - 1, len) + 1`, which is that slot for a 1-based index.
   */
  lemma ModifyAdd(s: ModifyState, env: ModifySearchEnv)
    requires Targeted(s) && s.intent.value.op.Add?
    requires SearchPlace(s.intent.value.searchKeyword, PlacesBefore(s), env).Found?
    ensures var r := ModifyMutateNode(s, env); var it := s.intent.value; var before := PlacesBefore(s);
      var o := SearchPlace(it.searchKeyword, before, env); var p := InsertPosition(AddPos(it, before), |before|);
      EditOf(s, r)
      && var after := r.modifiedItinerary.value.days[TargetPos(s)].places;
      InsertedAt(before, after, p, PlaceToCoursePlace(o.place, 0))
      && r.diffKeys == [BuildDiffKey(it.targetDay, AddPos(it, before) + 1)] && r.searchResults == o.results
      && (it.targetIndex >= 1 ==> p == AddPos(it, before))
  {
    var it := s.intent.value;
    var before := PlacesBefore(s);
    NodeSteps(s, env);
    AddOutcome(s, env, it, s.currentItinerary.value, TargetPos(s));
    var o := SearchPlace(it.searchKeyword, before, env);
    InsertedPlaces(before, InsertPosition(AddPos(it, before), |before|), PlaceToCoursePlace(o.place, 0));
  }

  /**
   * REMOVE has no minimum check: a valid index always removes the place, so
   * a one-place day becomes empty; the others keep their order and are
   * renumbered.
   */
  lemma ModifyRemove(s: ModifyState, env: ModifySearchEnv)
    requires Targeted(s) && s.intent.value.op.Remove? && 1 <= s.intent.value.targetIndex <= |PlacesBefore(s)|
    ensures var r := ModifyMutateNode(s, env); var it := s.intent.value; var before := PlacesBefore(s);
      EditOf(s, r)
      && var after := r.modifiedItinerary.value.days[TargetPos(s)].places;
      |after| == |before| - 1 && Dense(after) && Visits(after) == Visits(RemoveAt(before, it.targetIndex - 1))
      && r.diffKeys == [BuildDiffKey(it.targetDay, it.targetIndex)] && r.searchResults == []
  {
    NodeSteps(s, env);
    RemoveOutcome(s, s.intent.value, s.currentItinerary.value, TargetPos(s));
    RenumberedVisits(RemoveAt(PlacesBefore(s), s.intent.value.targetIndex - 1));
  }

  /** A completed REPLACE: only the named slot changes, to the chosen hit numbered with the target index. */
  lemma ModifyReplace(s: ModifyState, env: ModifySearchEnv)
    requires Targeted(s) && s.intent.value.op.Replace? && 1 <= s.intent.value.targetIndex <= |PlacesBefore(s)|
    requires SearchPlace(s.intent.value.searchKeyword, PlacesBefore(s), env).Found?
    ensures var r := ModifyMutateNode(s, env); var it := s.intent.value; var before := PlacesBefore(s);
      var o := SearchPlace(it.searchKeyword, before, env);
      EditOf(s, r)
      && var after := r.modifiedItinerary.value.days[TargetPos(s)].places;
      |after| == |before| && after[it.targetIndex - 1] == PlaceToCoursePlace(o.place, it.targetIndex)
      && (forall k :: 0 <= k < |before| && k != it.targetIndex - 1 ==> after[k] == before[k])
      && r.diffKeys == [BuildDiffKey(it.targetDay, it.targetIndex)] && r.searchResults == o.results
  {
    NodeSteps(s, env);
    ReplaceOutcome(s, env, s.intent.value, s.currentItinerary.value, TargetPos(s));
  }

  /**
   * A same-day MOVE edits the target day only, which becomes `SameDayPlaces`
   * of its places (what that list is: `SameDayPlacesMoved`); the key names
   * `min(dest_index - 1, len - 1) + 1`.
   */
  lemma ModifyMoveSameDay(s: ModifyState, env: ModifySearchEnv)
    requires Targeted(s) && s.intent.value.op.Move? && 1 <= s.intent.value.targetIndex <= |PlacesBefore(s)|
    requires DestDay(s.intent.value) == s.intent.value.targetDay
    ensures var r := ModifyMutateNode(s, env); var it := s.intent.value; var before := PlacesBefore(s);
      EditOf(s, r)
      && r.modifiedItinerary.value.days[TargetPos(s)].places == SameDayPlaces(before, it)
      && r.diffKeys == [BuildDiffKey(it.targetDay, MovePos(it, |before| - 1) + 1)]
  {
    NodeMovesWithinDay(s, env);
    SameDayEdit(s, s.intent.value, s.currentItinerary.value, TargetPos(s), ModifyMutateNode(s, env));
  }

  /** A same-day step's result: an edit whose target day holds `SameDayPlaces`. */
  lemma SameDayEdit(s: ModifyState, it: ModifyIntent, roadmap: Roadmap, di: nat, r: ModifyState)
    requires StepArgs(s, it, roadmap, di) && 0 <= it.targetIndex - 1 < |roadmap.days[di].places|
    requires r == SameDayMove(s, it, roadmap, di)
    ensures var before := roadmap.days[di].places;
      EditOf(s, r) && r.modifiedItinerary.value.days[di].places == SameDayPlaces(before, it)
      && r.diffKeys == [BuildDiffKey(it.targetDay, MovePos(it, |before| - 1) + 1)]
  {
    SameDayOutcome(s, it, roadmap, di);
  }

  /**
   * The places of a same-day MOVE: the same visits, the moved one at the slot
   * `insert` uses and the others in their order, renumbered; for a 1-based
   * destination that slot is `min(dest_index - 1, len - 1)`.
   */
  lemma SameDayPlacesMoved(before: seq<Place>, it: ModifyIntent)
    requires 0 <= it.targetIndex - 1 < |before|
    ensures var after := SameDayPlaces(before, it); var d := MovePos(it, |before| - 1); var p := InsertPosition(d, |before| - 1);
      MovedTo(before, after, it.targetIndex - 1, p) && multiset(Visits(after)) == multiset(Visits(before))
      && (DestIndex(it) >= 1 ==> p == d)
  {
    var p := InsertPosition(MovePos(it, |before| - 1), |before| - 1);
    MovedPlaces(before, it.targetIndex - 1, p);
    MovedIsPermutation(before, SameDayPlaces(before, it), it.targetIndex - 1, p);
  }

  /**
   * The intent a `ModifyIntent` dumps carries no destination, so its MOVE
   * stays in the day and always brings the place to the front.
   */
  lemma ModifyMoveDefaults(s: ModifyState, env: ModifySearchEnv)
    requires Targeted(s) && s.intent.value.op.Move? && 1 <= s.intent.value.targetIndex <= |PlacesBefore(s)|
    requires s.intent.value.destinationDay.None? && s.intent.value.destinationIndex.None?
    ensures var r := ModifyMutateNode(s, env); var before := PlacesBefore(s);
      EditOf(s, r)
      && Unnumbered(r.modifiedItinerary.value.days[TargetPos(s)].places[0]) == Unnumbered(before[s.intent.value.targetIndex - 1])
      && r.diffKeys == [BuildDiffKey(s.intent.value.targetDay, 1)]
  {
    ModifyMoveSameDay(s, env);
    SameDayPlacesMoved(PlacesBefore(s), s.intent.value);
  }

  /** The days of a cross-day MOVE: the total is kept and both days are as `CrossDayDays` promises. */
  lemma CrossDayPlaces(days: seq<Day>, di: nat, pos: nat, dj: nat, destPos: int)
    requires di < |days| && dj < |days| && di != dj && pos < |days[di].places|
    ensures var out := CrossDayDays(days, di, pos, dj, destPos); var src := days[di].places; var dst := days[dj].places;
      var p := InsertPosition(destPos, |dst|);
      TotalPlaces(out) == TotalPlaces(days)
      && Dense(out[di].places) && Visits(out[di].places) == Visits(RemoveAt(src, pos))
      && InsertedAt(dst, out[dj].places, p, src[pos])
      && (forall k :: 0 <= k < |days| && k != di && k != dj ==> out[k] == days[k])
  {
    var src := days[di].places;
    var dst := days[dj].places;
    var p := InsertPosition(destPos, |dst|);
    var srcAfter := Renumbered(RemoveAt(src, pos));
    var mid := SetDayPlaces(days, di, srcAfter);
    TotalPlacesSet(days, di, srcAfter);
    TotalPlacesSet(mid, dj, WithInserted(dst, p, src[pos]));
    RenumberedVisits(RemoveAt(src, pos));
    InsertedPlaces(dst, p, src[pos]);
  }

  /**
   * A MOVE to another existing day edits the itinerary into `CrossDayDays`
   * (what those days are: `CrossDayPlaces`), and the one diff key names the
   * destination day.
   */
  lemma ModifyMoveCrossDay(s: ModifyState, env: ModifySearchEnv)
    requires Targeted(s) && s.intent.value.op.Move? && 1 <= s.intent.value.targetIndex <= |PlacesBefore(s)|
    requires DestDay(s.intent.value) != s.intent.value.targetDay
    requires FindDay(s.currentItinerary.value.days, DestDay(s.intent.value)).Some?
    ensures var r := ModifyMutateNode(s, env); var it := s.intent.value; var days := s.currentItinerary.value.days;
      var dj := FindDay(days, DestDay(it)).value; var d := MovePos(it, |days[dj].places|);
      EditOf(s, r)
      && r.modifiedItinerary.value.days == CrossDayDays(days, TargetPos(s), it.targetIndex - 1, dj, d)
      && r.diffKeys == [BuildDiffKey(DestDay(it), d + 1)]
  {
    var days := s.currentItinerary.value.days;
    NodeMovesAcrossDays(s, env);
    CrossDayEdit(s, s.intent.value, s.currentItinerary.value, TargetPos(s), FindDay(days, DestDay(s.intent.value)).value, ModifyMutateNode(s, env));
  }

  /** A cross-day step's result: an edit into `CrossDayDays`. */
  lemma CrossDayEdit(s: ModifyState, it: ModifyIntent, roadmap: Roadmap, di: nat, dj: nat, r: ModifyState)
    requires StepArgs(s, it, roadmap, di) && 0 <= it.targetIndex - 1 < |roadmap.days[di].places|
    requires DestDay(it) != it.targetDay && FindDay(roadmap.days, DestDay(it)) == Some(dj)
    requires r == CrossDayMove(s, it, roadmap, di)
    ensures var d := MovePos(it, |roadmap.days[dj].places|);
      EditOf(s, r)
      && r.modifiedItinerary.value.days == CrossDayDays(roadmap.days, di, it.targetIndex - 1, dj, d)
      && r.diffKeys == [BuildDiffKey(DestDay(it), d + 1)]
  {
    CrossDayOutcome(s, it, roadmap, di);
  }
}
