/**
 * The edit node of the chat graph (`app/graph/chat/nodes/mutate.py`): it
 * applies one REPLACE, ADD, REMOVE or MOVE to a copy of the current
 * itinerary, keeps every day between 1 and 10 places, renumbers the edited
 * day densely and names the edited slot with a `day{N}_place{M}` key. REPLACE
 * and ADD first resolve a place through a Places search with a fallback chain
 * and an optional LLM rerank.
 *
 * The Places search, `math.cos` and both LLM replies are fields of
 * `SearchEnv`; `None` from the search or from an LLM stands for the call
 * raising.
 */
module ChatMutate {
  import opened Wrappers
  import opened PyText
  import opened PyList
  import opened Itinerary
  import opened Geo
  import opened ModifyUtils
  import opened ChatSchema
  import opened ChatGraphState
  import PlaceRerank

  const BboxMarginKm: real := 10.0
  const MaxPlacesPerDay: int := 10
  const MinPlacesPerDay: int := 1

  const MissingInputError: string := "mutate에는 intent와 current_itinerary가 필요합니다."
  const NoKeywordError: string := "검색 키워드가 없습니다."
  const SearchFailedError: string := "장소 검색에 실패했습니다."
  const AddLimitSummary: string := "하루 일정에는 최대 10개 장소까지만 추가할 수 있습니다."
  const RemoveLimitSummary: string := "하루 일정은 최소 1개 이상 유지되어야 합니다."
  const CrossDaySummary: string := "일자 간 이동은 지원하지 않습니다. 같은 일자 내 순서만 변경 가능합니다."

  function DayMissingError(d: int): string { IntText(d) + "일차를 찾을 수 없습니다." }
  function IndexMissingError(d: int, i: int): string { IntText(d) + "일차의 " + IntText(i) + "번째 장소가 없습니다." }
  function AddPositionError(d: int, i: int): string { IntText(d) + "일차의 " + IntText(i) + "번째 위치에는 추가할 수 없습니다." }

  // ---------------------------------------------------------------- day geometry

  /** The (latitude, longitude) of the places that have both, in order. */
  function DayPointsOf(places: seq<Place>): (r: seq<(real, real)>)
    ensures |r| <= |places|
    decreases |places|
  {
    if |places| == 0 then []
    else
      var r := DayPointsOf(places[..|places| - 1]);
      var p := places[|places| - 1];
      if HasCoordinates(p) then r + [(p.latitude.value, p.longitude.value)] else r
  }

  /** `_day_points`: the loop that skips places missing a coordinate. */
  method DayPoints(places: seq<Place>) returns (points: seq<(real, real)>)
    ensures points == DayPointsOf(places)
  {
    points := [];
    var i := 0;
    while i < |places|
      invariant 0 <= i <= |places|
      invariant points == DayPointsOf(places[..i])
    {
      var p := places[i];
      if p.latitude.Some? && p.longitude.Some? {
        points := points + [(p.latitude.value, p.longitude.value)];
      }
      i := i + 1;
      assert places[..i][..i - 1] == places[..i - 1];
    }
    assert places[..i] == places;
  }

  /** Every place with both coordinates contributes its point, and only such places do. */
  lemma {:induction false} DayPointsOfSpec(places: seq<Place>)
    ensures forall j :: 0 <= j < |places| && HasCoordinates(places[j]) ==>
      (places[j].latitude.value, places[j].longitude.value) in DayPointsOf(places)
    ensures |DayPointsOf(places)| == 0 <==> forall j :: 0 <= j < |places| ==> !HasCoordinates(places[j])
    decreases |places|
  {
    if |places| > 0 {
      var prefix := places[..|places| - 1];
      DayPointsOfSpec(prefix);
      assert forall j :: 0 <= j < |prefix| ==> prefix[j] == places[j];
    }
  }

  /** `_day_bbox`: the day's points grown by 10 km; None when no place has coordinates. */
  function DayBbox(places: seq<Place>, cosDeg: CosDegrees): (r: Option<Rect>)
    ensures r.None? <==> forall j :: 0 <= j < |places| ==> !HasCoordinates(places[j])
  {
    DayPointsOfSpec(places);
    FromPointsWithMarginKm(DayPointsOf(places), BboxMarginKm, cosDeg)
  }

  /** Every place of the day with valid coordinates lies in the day's box. */
  lemma DayBboxContainsDay(places: seq<Place>, cosDeg: CosDegrees, j: nat)
    requires j < |places| && HasCoordinates(places[j])
    requires ValidPoint((places[j].latitude.value, places[j].longitude.value))
    ensures var b := DayBbox(places, cosDeg); b.Some? && b.value.Contains(places[j].latitude.value, places[j].longitude.value)
  {
    DayPointsOfSpec(places);
    var pts := DayPointsOf(places);
    var pt := (places[j].latitude.value, places[j].longitude.value);
    var i :| 0 <= i < |pts| && pts[i] == pt;
    FromPointsContains(pts, BboxMarginKm, cosDeg, i);
  }

  // ---------------------------------------------------------------- candidates

  /** `_place_to_course_place`: a fresh visit for a search hit, with a blank `visit_time`. */
  function PlaceToCoursePlace(c: Candidate, visitSequence: int): (p: Place)
    ensures p.placeId == c.placeId && p.placeName == c.name && p.address == c.address && p.placeUrl == c.url
    ensures p.latitude == Some(c.latitude) && p.longitude == Some(c.longitude) && HasCoordinates(p)
    ensures p.visitSequence == Some(visitSequence) && p.visitTime == Some("")
    ensures p.section.None? && p.sectionHint.None?
    ensures StartsWith(p.description, c.name)
  {
    Place(c.name, c.placeId, c.address, Some(c.latitude), Some(c.longitude), c.url,
          c.name + "에서 즐길 수 있는 대표 활동입니다.", Some(visitSequence), Some(""), None, None)
  }

  /** The first position whose candidate has the given id. */
  function FirstIndexOf(results: seq<Candidate>, id: string): (r: Option<nat>)
    ensures r.Some? ==> r.value < |results| && results[r.value].placeId == id
    ensures r.Some? ==> forall j :: 0 <= j < r.value ==> results[j].placeId != id
    ensures r.None? ==> forall j :: 0 <= j < |results| ==> results[j].placeId != id
  {
    if |results| == 0 then None
    else if results[0].placeId == id then Some(0)
    else match FirstIndexOf(results[1..], id)
      case None => None
      case Some(i) => Some(i + 1)
  }

  /**
   * `_reorder_results_by_place_id`: a permutation that brings the first
   * candidate with the id to the front, the others keeping their order; no
   * change when the id is absent or already first.
   */
  function ReorderResultsByPlaceId(results: seq<Candidate>, id: string): (r: seq<Candidate>)
    ensures |r| == |results| && multiset(r) == multiset(results)
    ensures var k := FirstIndexOf(results, id); k.None? || k.value == 0 ==> r == results
    ensures var k := FirstIndexOf(results, id); k.Some? ==> r[0] == results[k.value] && r[1..] == RemoveAt(results, k.value)
    ensures (exists j :: 0 <= j < |results| && results[j].placeId == id) ==> r[0].placeId == id
  {
    var k := FirstIndexOf(results, id);
    if k.None? || k.value == 0 then results
    else
      var rest := RemoveAt(results, k.value);
      RemoveAtMultiset(results, k.value);
      assert ([results[k.value]] + rest)[1..] == rest;
      [results[k.value]] + rest
  }

  /** The candidates inside the box, in their order. */
  function InBox(results: seq<Candidate>, bbox: Rect): (r: seq<Candidate>)
    ensures |r| <= |results|
    ensures forall i :: 0 <= i < |r| ==> bbox.Contains(r[i].latitude, r[i].longitude)
    ensures forall c :: multiset(r)[c] == if bbox.Contains(c.latitude, c.longitude) then multiset(results)[c] else 0
    decreases |results|
  {
    if |results| == 0 then []
    else
      var head := if bbox.Contains(results[0].latitude, results[0].longitude) then [results[0]] else [];
      assert results == [results[0]] + results[1..];
      head + InBox(results[1..], bbox)
  }

  /** Filtering a concatenation filters each part: the kept candidates keep their relative order. */
  lemma {:induction false} InBoxAppend(a: seq<Candidate>, b: seq<Candidate>, bbox: Rect)
    ensures InBox(a + b, bbox) == InBox(a, bbox) + InBox(b, bbox)
    decreases |a|
  {
    hide *;
    if |a| > 0 {
      assert (a + b)[0] == a[0] && (a + b)[1..] == a[1..] + b;
      InBoxStep(a + b, bbox);
      InBoxStep(a, bbox);
      InBoxAppend(a[1..], b, bbox);
    } else {
      assert a + b == b;
      InBoxStep(a, bbox);
    }
  }

  lemma InBoxStep(s: seq<Candidate>, bbox: Rect)
    ensures |s| == 0 ==> InBox(s, bbox) == []
    ensures |s| > 0 ==>
      InBox(s, bbox) == (if bbox.Contains(s[0].latitude, s[0].longitude) then [s[0]] else []) + InBox(s[1..], bbox)
  {
  }

  /** `_hard_filter_by_bbox`: the in-box candidates and how many were dropped. */
  function HardFilterByBbox(results: seq<Candidate>, bbox: Rect): (r: (seq<Candidate>, int))
    ensures r.0 == InBox(results, bbox)
    ensures r.1 >= 0 && r.1 + |r.0| == |results|
  {
    var filtered := InBox(results, bbox);
    (filtered, if |results| - |filtered| > 0 then |results| - |filtered| else 0)
  }

  // ---------------------------------------------------------------- candidate search

  /** The Places search: `(keyword, location_restriction, min_rating applied)`; None when it raises. */
  type PlacesSearch = (string, Option<Rect>, bool) -> Option<seq<Candidate>>

  /** Everything `_search_place` consults besides the intent and the day. */
  datatype SearchEnv = SearchEnv(
    search: PlacesSearch,
    cosDeg: CosDegrees,
    rerankEnabled: bool,
    maxCandidates: int,
    rerankReply: Option<string>,
    suggestReply: Option<string>)

  /**
   * The fallback chain: within the day's box (hard-filtered), then without
   * the box, then without the minimum rating; each later stage only when the
   * results so far are empty. None when a search raises.
   */
  function StageResults(keyword: string, bbox: Option<Rect>, search: PlacesSearch): Option<seq<Candidate>>
  {
    var first := search(keyword, bbox, true);
    if first.None? then None
    else
      var r1 := if bbox.Some? && |first.value| > 0 then HardFilterByBbox(first.value, bbox.value).0 else first.value;
      var second := if |r1| == 0 && bbox.Some? then search(keyword, None, true) else Some(r1);
      if second.None? then None
      else if |second.value| == 0 then search(keyword, None, false)
      else second
  }

  /** `_suggest_alternative_keyword`: the trimmed, unquoted reply, unless empty or the keyword itself. */
  function SuggestAlternativeKeyword(keyword: string, reply: Option<string>): (r: Option<string>)
    ensures r.Some? ==> |r.value| > 0 && r.value != keyword
    ensures reply.None? ==> r.None?
  {
    if reply.None? then None
    else
      var suggested := StripChars(Strip(reply.value), {'\'', '"'});
      if |suggested| > 0 && suggested != keyword then Some(suggested) else None
  }

  function NoResultsSummary(keyword: string, suggested: Option<string>): string
  {
    "'" + keyword + "' 검색 결과가 없습니다."
    + (if suggested.Some? then " '" + suggested.value + "'로 다시 검색해볼까요?" else "")
  }

  datatype SearchOutcome =
    | Found(place: Candidate, results: seq<Candidate>)
    | SearchFailed(error: string)
    | NoResults(summary: string, suggested: Option<string>)

  /** The rerank choice applied to the results (only for two or more results). */
  function Ranked(keyword: string, results: seq<Candidate>, env: SearchEnv): (r: seq<Candidate>)
    ensures |r| == |results| && multiset(r) == multiset(results)
  {
    if env.rerankEnabled && |results| > 1 then
      var selected := PlaceRerank.SelectPlaceIdForChat(Take(results, env.maxCandidates), env.maxCandidates, env.rerankReply);
      if selected.Some? && |selected.value| > 0 then ReorderResultsByPlaceId(results, selected.value) else results
    else results
  }

  /** `_search_place`. */
  function SearchPlace(keyword: Option<string>, places: seq<Place>, env: SearchEnv): (r: SearchOutcome)
    ensures keyword.None? || |keyword.value| == 0 ==> r == SearchFailed(NoKeywordError)
    ensures r.Found? ==> |r.results| > 0 && r.place == r.results[0]
    ensures r.NoResults? ==> r.suggested.Some? ==> r.suggested.value != keyword.value
  {
    if keyword.None? || |keyword.value| == 0 then SearchFailed(NoKeywordError)
    else
      var kw := keyword.value;
      var results := StageResults(kw, DayBbox(places, env.cosDeg), env.search);
      if results.None? then SearchFailed(SearchFailedError)
      else if |results.value| == 0 then
        var suggested := SuggestAlternativeKeyword(kw, env.suggestReply);
        NoResults(NoResultsSummary(kw, suggested), suggested)
      else
        var ranked := Ranked(kw, results.value, env);
        Found(ranked[0], ranked)
  }

  /** ASK_CLARIFICATION comes only after the unrestricted searches, with and without the rating, both came back empty. */
  lemma SearchNoResultsExhausted(keyword: Option<string>, places: seq<Place>, env: SearchEnv)
    requires SearchPlace(keyword, places, env).NoResults?
    ensures keyword.Some? && |keyword.value| > 0
    ensures env.search(keyword.value, None, true) == Some([])
    ensures env.search(keyword.value, None, false) == Some([])
    ensures var bbox := DayBbox(places, env.cosDeg);
      bbox.Some? ==> env.search(keyword.value, bbox, true).Some?
                     && |InBox(env.search(keyword.value, bbox, true).value, bbox.value)| == 0
  {
  }

  /** A found place is one of the fallback chain's results, and it lies in the day's box when the boxed search found any. */
  lemma SearchFoundFromResults(keyword: Option<string>, places: seq<Place>, env: SearchEnv)
    requires SearchPlace(keyword, places, env).Found?
    ensures keyword.Some? && var results := StageResults(keyword.value, DayBbox(places, env.cosDeg), env.search);
      results.Some? && SearchPlace(keyword, places, env).place in results.value
    ensures var bbox := DayBbox(places, env.cosDeg);
      var first := env.search(keyword.value, bbox, true);
      bbox.Some? && first.Some? && |InBox(first.value, bbox.value)| > 0 ==>
        bbox.value.Contains(SearchPlace(keyword, places, env).place.latitude, SearchPlace(keyword, places, env).place.longitude)
  {
    var kw := keyword.value;
    var bbox := DayBbox(places, env.cosDeg);
    var results := StageResults(kw, bbox, env.search).value;
    var r := SearchPlace(keyword, places, env);
    assert r.place in multiset(r.results);
    assert r.place in multiset(results);
    var first := env.search(kw, bbox, true);
    if bbox.Some? && first.Some? && |InBox(first.value, bbox.value)| > 0 {
      assert results == InBox(first.value, bbox.value);
    }
  }

  /** A valid rerank choice that names one of the results is the place taken. */
  lemma SearchHonoursRerank(keyword: Option<string>, places: seq<Place>, env: SearchEnv, id: string)
    requires keyword.Some? && |keyword.value| > 0
    requires var results := StageResults(keyword.value, DayBbox(places, env.cosDeg), env.search);
      results.Some? && |results.value| > 1 && env.rerankEnabled
      && PlaceRerank.SelectPlaceIdForChat(Take(results.value, env.maxCandidates), env.maxCandidates, env.rerankReply) == Some(id)
      && |id| > 0 && exists j :: 0 <= j < |results.value| && results.value[j].placeId == id
    ensures SearchPlace(keyword, places, env).Found? && SearchPlace(keyword, places, env).place.placeId == id
  {
  }

  // ---------------------------------------------------------------- the edit

  /** The multiset of a day's places ignoring `visit_sequence`. */
  function VisitBag(ps: seq<Place>): multiset<Place> { multiset(Visits(ps)) }

  /** `intent.get("destination_index")` is present whenever a same-day MOVE reads it (strict validation ensures this). */
  predicate MoveIndexPresent(s: ChatState)
  {
    s.intent.Some? && s.intent.value.op.Move? && s.intent.value.destinationDay == Some(s.intent.value.targetDay)
    ==> s.intent.value.destinationIndex.Some?
  }

  function Fail(s: ChatState, e: string): ChatState { s.(error := Some(e)) }
  function Reject(s: ChatState, summary: string): ChatState { s.(status := Some(Rejected), changeSummary := summary) }

  /** The state returned when the search did not produce a place. */
  function SearchStopped(s: ChatState, o: SearchOutcome): ChatState
    requires !o.Found?
  {
    match o
    case SearchFailed(e) => s.(searchResults := [], error := Some(e))
    case NoResults(summary, suggested) =>
      s.(searchResults := [], status := Some(AskClarification), changeSummary := summary, suggestedKeyword := suggested)
  }

  /** The state after a successful edit of day `di`. */
  function Edited(s: ChatState, roadmap: Roadmap, di: nat, ps: seq<Place>, key: string, results: seq<Candidate>): ChatState
    requires di < |roadmap.days|
  {
    s.(modifiedItinerary := Some(roadmap.(days := SetDayPlaces(roadmap.days, di, ps))),
       diffKeys := [key], warnings := s.warnings, searchResults := results)
  }

  /** The 0-based slot a same-day MOVE lands in: `min(max(1, dest_index) - 1, len - 1)`. */
  function MoveDestination(len: nat, destinationIndex: int): (p: nat)
    requires len > 0
    ensures p < len
  {
    var d := (if destinationIndex >= 1 then destinationIndex else 1) - 1;
    if d <= len - 1 then d else len - 1
  }

  function ReplaceStep(s: ChatState, env: SearchEnv, it: ChatIntent, roadmap: Roadmap, di: nat): ChatState
    requires di < |roadmap.days| && 0 <= it.targetIndex - 1 < |roadmap.days[di].places|
  {
    var places := roadmap.days[di].places;
    var o := SearchPlace(it.searchKeyword, places, env);
    if !o.Found? then SearchStopped(s, o)
    else Edited(s, roadmap, di, places[it.targetIndex - 1 := PlaceToCoursePlace(o.place, it.targetIndex)],
                BuildDiffKey(it.targetDay, it.targetIndex), o.results)
  }

  function AddStep(s: ChatState, env: SearchEnv, it: ChatIntent, roadmap: Roadmap, di: nat): ChatState
    requires di < |roadmap.days|
  {
    var places := roadmap.days[di].places;
    if |places| >= MaxPlacesPerDay then Reject(s, AddLimitSummary)
    else if it.targetIndex < 1 || it.targetIndex > |places| + 1 then Fail(s, AddPositionError(it.targetDay, it.targetIndex))
    else
      var o := SearchPlace(it.searchKeyword, places, env);
      if !o.Found? then SearchStopped(s, o)
      else Edited(s, roadmap, di, WithInserted(places, it.targetIndex - 1, PlaceToCoursePlace(o.place, 0)),
                  BuildDiffKey(it.targetDay, it.targetIndex), o.results)
  }

  function RemoveStep(s: ChatState, it: ChatIntent, roadmap: Roadmap, di: nat): ChatState
    requires di < |roadmap.days| && 0 <= it.targetIndex - 1 < |roadmap.days[di].places|
  {
    var places := roadmap.days[di].places;
    if |places| <= MinPlacesPerDay then Reject(s, RemoveLimitSummary)
    else Edited(s, roadmap, di, Renumbered(RemoveAt(places, it.targetIndex - 1)), BuildDiffKey(it.targetDay, it.targetIndex), [])
  }

  function MoveStep(s: ChatState, it: ChatIntent, roadmap: Roadmap, di: nat): ChatState
    requires di < |roadmap.days| && 0 <= it.targetIndex - 1 < |roadmap.days[di].places|
    requires it.destinationDay == Some(it.targetDay) ==> it.destinationIndex.Some?
  {
    var places := roadmap.days[di].places;
    if it.destinationDay != Some(it.targetDay) then Reject(s, CrossDaySummary)
    else
      var pos := it.targetIndex - 1;
      var dest := MoveDestination(|places|, it.destinationIndex.value);
      Edited(s, roadmap, di, WithMoved(places, pos, dest), BuildDiffKey(it.targetDay, dest + 1), [])
  }

  /** What `mutate` returns for a state. */
  function MutateNode(s: ChatState, env: SearchEnv): (r: ChatState)
    requires MoveIndexPresent(s)
    ensures r.currentItinerary == s.currentItinerary && r.intent == s.intent && r.userQuery == s.userQuery
    ensures r.warnings == s.warnings && r.intentType == s.intentType
  {
    if s.intent.None? || s.currentItinerary.None? then Fail(s, MissingInputError)
    else
      var it := s.intent.value;
      var roadmap := s.currentItinerary.value;
      var found := FindDay(roadmap.days, it.targetDay);
      if found.None? then Fail(s, DayMissingError(it.targetDay))
      else
        var di := found.value;
        var places := roadmap.days[di].places;
        if !it.op.Add? && !(0 <= it.targetIndex - 1 < |places|) then Fail(s, IndexMissingError(it.targetDay, it.targetIndex))
        else match it.op
          case Replace => ReplaceStep(s, env, it, roadmap, di)
          case Add => AddStep(s, env, it, roadmap, di)
          case Remove => RemoveStep(s, it, roadmap, di)
          case Move => MoveStep(s, it, roadmap, di)
  }

  /** REPLACE on a copy of day `di`: the slot is overwritten in place. */
  method ApplyReplace(s: ChatState, env: SearchEnv, it: ChatIntent, itinerary: Roadmap, di: nat) returns (r: ChatState)
    requires di < |itinerary.days| && 0 <= it.targetIndex - 1 < |itinerary.days[di].places|
    ensures r == ReplaceStep(s, env, it, itinerary, di)
  {
    var places := itinerary.days[di].places;
    var o := SearchPlace(it.searchKeyword, places, env);
    if !o.Found? {
      return SearchStopped(s, o);
    }
    places := places[it.targetIndex - 1 := PlaceToCoursePlace(o.place, it.targetIndex)];
    return Edited(s, itinerary, di, places, BuildDiffKey(it.targetDay, it.targetIndex), o.results);
  }

  /** ADD on a copy of day `di`: limit and position checks, the search, then insert and renumber. */
  method ApplyAdd(s: ChatState, env: SearchEnv, it: ChatIntent, itinerary: Roadmap, di: nat) returns (r: ChatState)
    requires di < |itinerary.days|
    ensures r == AddStep(s, env, it, itinerary, di)
  {
    var places := itinerary.days[di].places;
    if |places| >= MaxPlacesPerDay {
      return Reject(s, AddLimitSummary);
    }
    if it.targetIndex < 1 || it.targetIndex > |places| + 1 {
      return Fail(s, AddPositionError(it.targetDay, it.targetIndex));
    }
    var insertPos := it.targetIndex - 1;
    var o := SearchPlace(it.searchKeyword, places, env);
    if !o.Found? {
      return SearchStopped(s, o);
    }
    places := Insert(places, insertPos, PlaceToCoursePlace(o.place, 0));
    places := ReorderVisitSequence(places);
    return Edited(s, itinerary, di, places, BuildDiffKey(it.targetDay, insertPos + 1), o.results);
  }

  /** REMOVE on a copy of day `di`: the minimum check, then pop and renumber. */
  method ApplyRemove(s: ChatState, it: ChatIntent, itinerary: Roadmap, di: nat) returns (r: ChatState)
    requires di < |itinerary.days| && 0 <= it.targetIndex - 1 < |itinerary.days[di].places|
    ensures r == RemoveStep(s, it, itinerary, di)
  {
    var places := itinerary.days[di].places;
    if |places| <= MinPlacesPerDay {
      return Reject(s, RemoveLimitSummary);
    }
    places := RemoveAt(places, it.targetIndex - 1);
    places := ReorderVisitSequence(places);
    return Edited(s, itinerary, di, places, BuildDiffKey(it.targetDay, it.targetIndex), []);
  }

  /** MOVE on a copy of day `di`: the cross-day check, then the move within the day. */
  method ApplyMove(s: ChatState, it: ChatIntent, itinerary: Roadmap, di: nat) returns (r: ChatState)
    requires di < |itinerary.days| && 0 <= it.targetIndex - 1 < |itinerary.days[di].places|
    requires it.destinationDay == Some(it.targetDay) ==> it.destinationIndex.Some?
    ensures r == MoveStep(s, it, itinerary, di)
  {
    if it.destinationDay != Some(it.targetDay) {
      return Reject(s, CrossDaySummary);
    }
    var places, destPos := MovePlace(itinerary.days[di].places, it.targetIndex - 1, it.destinationIndex.value);
    return Edited(s, itinerary, di, places, BuildDiffKey(it.targetDay, destPos + 1), []);
  }

  /** Pop the place at `pos`, clamp the destination to the shortened list, insert it there and renumber. */
  method MovePlace(places: seq<Place>, pos: nat, destinationIndex: int) returns (r: seq<Place>, destPos: nat)
    requires pos < |places|
    ensures destPos == MoveDestination(|places|, destinationIndex)
    ensures r == WithMoved(places, pos, destPos)
  {
    var destIndex := if destinationIndex >= 1 then destinationIndex else 1;
    destPos := destIndex - 1;
    var moved := places[pos];
    var rest := RemoveAt(places, pos);
    destPos := if destPos <= |rest| then destPos else |rest|;
    r := Insert(rest, destPos, moved);
    r := ReorderVisitSequence(r);
  }

  /**
   * `mutate`: the edit on a copy of the itinerary, with the day's place list
   * updated step by step (`places[i] = …`, `insert`, `pop`, then the in-place
   * renumbering).
   */
  method Mutate(s: ChatState, env: SearchEnv) returns (r: ChatState)
    requires MoveIndexPresent(s)
    ensures r == MutateNode(s, env)
  {
    if s.intent.None? || s.currentItinerary.None? {
      return Fail(s, MissingInputError);
    }
    var it := s.intent.value;
    var itinerary := s.currentItinerary.value;
    var found := FindDay(itinerary.days, it.targetDay);
    if found.None? {
      return Fail(s, DayMissingError(it.targetDay));
    }
    var di := found.value;
    var targetPos := it.targetIndex - 1;
    if it.op != Add && (targetPos < 0 || targetPos >= |itinerary.days[di].places|) {
      return Fail(s, IndexMissingError(it.targetDay, it.targetIndex));
    }
    match it.op {
      case Replace => r := ApplyReplace(s, env, it, itinerary, di);
      case Add => r := ApplyAdd(s, env, it, itinerary, di);
      case Remove => r := ApplyRemove(s, it, itinerary, di);
      case Move => r := ApplyMove(s, it, itinerary, di);
    }
  }

  // ---------------------------------------------------------------- what an edit guarantees

  /** The node stopped without editing: an error, a rejection or a question back to the user, and nothing else touched. */
  predicate Stopped(s: ChatState, r: ChatState)
  {
    r.(error := s.error, status := s.status, changeSummary := s.changeSummary,
       suggestedKeyword := s.suggestedKeyword, searchResults := s.searchResults) == s
    && (HasError(r) || r.status == Some(Rejected) || r.status == Some(AskClarification))
  }

  /** The intent names a day of the current itinerary. */
  predicate Targeted(s: ChatState)
  {
    s.intent.Some? && s.currentItinerary.Some? && FindDay(s.currentItinerary.value.days, s.intent.value.targetDay).Some?
  }

  /** The position of the named day. */
  function TargetPos(s: ChatState): (di: nat)
    requires Targeted(s)
    ensures di < |s.currentItinerary.value.days|
  {
    FindDay(s.currentItinerary.value.days, s.intent.value.targetDay).value
  }

  /** The named day's places before the edit. */
  function PlacesBefore(s: ChatState): seq<Place>
    requires Targeted(s)
  {
    s.currentItinerary.value.days[TargetPos(s)].places
  }

  /**
   * The node edited the day the intent names: the new itinerary is the
   * current one with only that day's place list replaced, one diff key is
   * written, and nothing else but the search results changes.
   */
  predicate EditOf(s: ChatState, r: ChatState)
  {
    Targeted(s) && r.modifiedItinerary.Some?
    && var cur := s.currentItinerary.value;
    |r.modifiedItinerary.value.days| == |cur.days|
    && r.modifiedItinerary.value == cur.(days := SetDayPlaces(cur.days, TargetPos(s), r.modifiedItinerary.value.days[TargetPos(s)].places))
    && |r.diffKeys| == 1 && Split(r.diffKeys[0], '_')[0] == "day" + IntText(s.intent.value.targetDay)
    && r.(modifiedItinerary := s.modifiedItinerary, diffKeys := s.diffKeys, searchResults := s.searchResults) == s
  }

  lemma EditedIsEditOf(s: ChatState, roadmap: Roadmap, di: nat, ps: seq<Place>, m: int, results: seq<Candidate>)
    requires s.intent.Some? && s.currentItinerary == Some(roadmap)
    requires FindDay(roadmap.days, s.intent.value.targetDay) == Some(di)
    ensures EditOf(s, Edited(s, roadmap, di, ps, BuildDiffKey(s.intent.value.targetDay, m), results))
  {
    DiffKeyParts(s.intent.value.targetDay, m);
  }

  /** The arguments the node hands to its per-operation step. */
  predicate StepArgs(s: ChatState, it: ChatIntent, roadmap: Roadmap, di: nat)
  {
    s.intent == Some(it) && s.currentItinerary == Some(roadmap) && FindDay(roadmap.days, it.targetDay) == Some(di)
  }

  lemma SearchStoppedIsStop(s: ChatState, keyword: Option<string>, places: seq<Place>, env: SearchEnv)
    requires !SearchPlace(keyword, places, env).Found?
    ensures Stopped(s, SearchStopped(s, SearchPlace(keyword, places, env)))
  {
  }

  lemma ReplaceOutcome(s: ChatState, env: SearchEnv, it: ChatIntent, roadmap: Roadmap, di: nat)
    requires StepArgs(s, it, roadmap, di) && 0 <= it.targetIndex - 1 < |roadmap.days[di].places|
    ensures var r := ReplaceStep(s, env, it, roadmap, di); Stopped(s, r) || EditOf(s, r)
  {
    var places := roadmap.days[di].places;
    var o := SearchPlace(it.searchKeyword, places, env);
    if o.Found? {
      EditedIsEditOf(s, roadmap, di, places[it.targetIndex - 1 := PlaceToCoursePlace(o.place, it.targetIndex)], it.targetIndex, o.results);
    } else {
      SearchStoppedIsStop(s, it.searchKeyword, places, env);
    }
  }

  lemma AddOutcome(s: ChatState, env: SearchEnv, it: ChatIntent, roadmap: Roadmap, di: nat)
    requires StepArgs(s, it, roadmap, di)
    ensures var r := AddStep(s, env, it, roadmap, di); Stopped(s, r) || EditOf(s, r)
  {
    var places := roadmap.days[di].places;
    if |places| < MaxPlacesPerDay && 1 <= it.targetIndex <= |places| + 1 {
      var o := SearchPlace(it.searchKeyword, places, env);
      if o.Found? {
        EditedIsEditOf(s, roadmap, di, WithInserted(places, it.targetIndex - 1, PlaceToCoursePlace(o.place, 0)), it.targetIndex, o.results);
      } else {
        SearchStoppedIsStop(s, it.searchKeyword, places, env);
      }
    }
  }

  lemma RemoveOutcome(s: ChatState, it: ChatIntent, roadmap: Roadmap, di: nat)
    requires StepArgs(s, it, roadmap, di) && 0 <= it.targetIndex - 1 < |roadmap.days[di].places|
    ensures var r := RemoveStep(s, it, roadmap, di); Stopped(s, r) || EditOf(s, r)
  {
    var places := roadmap.days[di].places;
    if |places| > MinPlacesPerDay {
      EditedIsEditOf(s, roadmap, di, Renumbered(RemoveAt(places, it.targetIndex - 1)), it.targetIndex, []);
    }
  }

  lemma MoveOutcome(s: ChatState, it: ChatIntent, roadmap: Roadmap, di: nat)
    requires StepArgs(s, it, roadmap, di) && 0 <= it.targetIndex - 1 < |roadmap.days[di].places|
    requires it.destinationDay == Some(it.targetDay) ==> it.destinationIndex.Some?
    ensures var r := MoveStep(s, it, roadmap, di); Stopped(s, r) || EditOf(s, r)
  {
    var places := roadmap.days[di].places;
    if it.destinationDay == Some(it.targetDay) {
      var dest := MoveDestination(|places|, it.destinationIndex.value);
      EditedIsEditOf(s, roadmap, di, WithMoved(places, it.targetIndex - 1, dest), dest + 1, []);
    }
  }

  /** The node hands a targeted request with a usable index to its operation's step. */
  lemma NodeSteps(s: ChatState, env: SearchEnv)
    requires MoveIndexPresent(s) && Targeted(s)
    requires s.intent.value.op.Add? || 1 <= s.intent.value.targetIndex <= |PlacesBefore(s)|
    ensures var it := s.intent.value; var roadmap := s.currentItinerary.value; var di := TargetPos(s);
      && (it.op.Replace? ==> MutateNode(s, env) == ReplaceStep(s, env, it, roadmap, di))
      && (it.op.Add? ==> MutateNode(s, env) == AddStep(s, env, it, roadmap, di))
      && (it.op.Remove? ==> MutateNode(s, env) == RemoveStep(s, it, roadmap, di))
      && (it.op.Move? ==> MutateNode(s, env) == MoveStep(s, it, roadmap, di))
  {
  }

  /** Every run of the node either stops untouched or edits exactly the named day. */
  lemma MutateOutcome(s: ChatState, env: SearchEnv)
    requires MoveIndexPresent(s)
    ensures Stopped(s, MutateNode(s, env)) || EditOf(s, MutateNode(s, env))
  {
    if Targeted(s) {
      var it := s.intent.value;
      var roadmap := s.currentItinerary.value;
      var di := TargetPos(s);
      if it.op.Add? || 1 <= it.targetIndex <= |PlacesBefore(s)| {
        NodeSteps(s, env);
        match it.op
        case Replace => ReplaceOutcome(s, env, it, roadmap, di);
        case Add => AddOutcome(s, env, it, roadmap, di);
        case Remove => RemoveOutcome(s, it, roadmap, di);
        case Move => MoveOutcome(s, it, roadmap, di);
      }
    }
  }

  /** An edit happened only for a targeted request whose index names a place (any index for ADD). */
  lemma EditedRequest(s: ChatState, env: SearchEnv)
    requires MoveIndexPresent(s) && MutateNode(s, env).modifiedItinerary != s.modifiedItinerary
    ensures EditOf(s, MutateNode(s, env))
    ensures s.intent.value.op.Add? || 1 <= s.intent.value.targetIndex <= |PlacesBefore(s)|
  {
    MutateOutcome(s, env);
    if !s.intent.value.op.Add? && !(1 <= s.intent.value.targetIndex <= |PlacesBefore(s)|) {
      MutateErrors(s, env);
      assert false;
    }
  }

  /** The named day's places after an edit. */
  function PlacesAfter(s: ChatState, r: ChatState): seq<Place>
    requires EditOf(s, r)
  {
    r.modifiedItinerary.value.days[TargetPos(s)].places
  }

  /** An ADD step that edited: the guards passed and the day's list is the searched place inserted at the target index. */
  lemma AddEdit(s: ChatState, env: SearchEnv, it: ChatIntent, roadmap: Roadmap, di: nat, r: ChatState)
    requires StepArgs(s, it, roadmap, di) && r == AddStep(s, env, it, roadmap, di)
    requires r.modifiedItinerary != s.modifiedItinerary
    ensures var places := roadmap.days[di].places;
      |places| < MaxPlacesPerDay && 1 <= it.targetIndex <= |places| + 1 && |r.searchResults| > 0
      && r.modifiedItinerary.value.days[di].places == WithInserted(places, it.targetIndex - 1, PlaceToCoursePlace(r.searchResults[0], 0))
      && r.diffKeys == [BuildDiffKey(it.targetDay, it.targetIndex)]
  {
  }

  /**
   * A completed ADD: the day had room and the position was 1..N+1; the
   * searched place sits at that position, the other places keep their order,
   * and the day is renumbered 1..N+1.
   */
  lemma MutateAdd(s: ChatState, env: SearchEnv)
    requires MoveIndexPresent(s) && s.intent.Some? && s.intent.value.op.Add?
    requires MutateNode(s, env).modifiedItinerary != s.modifiedItinerary
    ensures EditOf(s, MutateNode(s, env))
    ensures var r := MutateNode(s, env); var before := PlacesBefore(s); var ti := s.intent.value.targetIndex;
      |before| < MaxPlacesPerDay && 1 <= ti <= |before| + 1 && |r.searchResults| > 0
      && InsertedAt(before, PlacesAfter(s, r), ti - 1, PlaceToCoursePlace(r.searchResults[0], 0))
      && r.diffKeys == [BuildDiffKey(s.intent.value.targetDay, ti)]
  {
    var r := MutateNode(s, env);
    EditedRequest(s, env);
    NodeSteps(s, env);
    AddEdit(s, env, s.intent.value, s.currentItinerary.value, TargetPos(s), r);
    InsertedPlaces(PlacesBefore(s), s.intent.value.targetIndex - 1, PlaceToCoursePlace(r.searchResults[0], 0));
  }

  /** A REMOVE step that edited: the day had more than one place and lost the named one. */
  lemma RemoveEdit(s: ChatState, it: ChatIntent, roadmap: Roadmap, di: nat, r: ChatState)
    requires StepArgs(s, it, roadmap, di) && 0 <= it.targetIndex - 1 < |roadmap.days[di].places|
    requires r == RemoveStep(s, it, roadmap, di) && r.modifiedItinerary != s.modifiedItinerary
    ensures var places := roadmap.days[di].places;
      MinPlacesPerDay < |places|
      && r.modifiedItinerary.value.days[di].places == Renumbered(RemoveAt(places, it.targetIndex - 1))
      && r.diffKeys == [BuildDiffKey(it.targetDay, it.targetIndex)] && r.searchResults == []
  {
  }

  /** A completed REMOVE: the day kept at least one place; the others keep their order and are renumbered. */
  lemma MutateRemove(s: ChatState, env: SearchEnv)
    requires MoveIndexPresent(s) && s.intent.Some? && s.intent.value.op.Remove?
    requires MutateNode(s, env).modifiedItinerary != s.modifiedItinerary
    ensures EditOf(s, MutateNode(s, env))
    ensures var r := MutateNode(s, env); var before := PlacesBefore(s); var after := PlacesAfter(s, r);
      var ti := s.intent.value.targetIndex;
      MinPlacesPerDay < |before| && 1 <= ti <= |before| && |after| == |before| - 1 && Dense(after)
      && Visits(after) == Visits(RemoveAt(before, ti - 1))
      && r.diffKeys == [BuildDiffKey(s.intent.value.targetDay, ti)] && r.searchResults == []
  {
    var r := MutateNode(s, env);
    EditedRequest(s, env);
    NodeSteps(s, env);
    RemoveEdit(s, s.intent.value, s.currentItinerary.value, TargetPos(s), r);
    RenumberedVisits(RemoveAt(PlacesBefore(s), s.intent.value.targetIndex - 1));
  }

  /** A MOVE step that edited: it stayed in the day and moved the place to the clamped destination. */
  lemma MoveEdit(s: ChatState, it: ChatIntent, roadmap: Roadmap, di: nat, r: ChatState)
    requires StepArgs(s, it, roadmap, di) && 0 <= it.targetIndex - 1 < |roadmap.days[di].places|
    requires it.destinationDay == Some(it.targetDay) ==> it.destinationIndex.Some?
    requires r == MoveStep(s, it, roadmap, di) && r.modifiedItinerary != s.modifiedItinerary
    ensures var places := roadmap.days[di].places;
      it.destinationDay == Some(it.targetDay) && it.destinationIndex.Some?
      && var dest := MoveDestination(|places|, it.destinationIndex.value);
      r.modifiedItinerary.value.days[di].places == WithMoved(places, it.targetIndex - 1, dest)
      && r.diffKeys == [BuildDiffKey(it.targetDay, dest + 1)] && r.searchResults == []
  {
  }

  /**
   * A completed same-day MOVE: the day holds the same places, the moved one
   * at the clamped destination and the others in their order, renumbered.
   */
  lemma MutateMove(s: ChatState, env: SearchEnv)
    requires MoveIndexPresent(s) && s.intent.Some? && s.intent.value.op.Move?
    requires MutateNode(s, env).modifiedItinerary != s.modifiedItinerary
    ensures EditOf(s, MutateNode(s, env))
    ensures var r := MutateNode(s, env); var before := PlacesBefore(s); var after := PlacesAfter(s, r);
      var it := s.intent.value; var pos := it.targetIndex - 1;
      it.destinationDay == Some(it.targetDay) && it.destinationIndex.Some? && 0 <= pos < |before|
      && var dest := MoveDestination(|before|, it.destinationIndex.value);
      MovedTo(before, after, pos, dest) && VisitBag(after) == VisitBag(before)
      && r.diffKeys == [BuildDiffKey(it.targetDay, dest + 1)] && r.searchResults == []
  {
    var r := MutateNode(s, env);
    var it := s.intent.value;
    EditedRequest(s, env);
    NodeSteps(s, env);
    MoveEdit(s, it, s.currentItinerary.value, TargetPos(s), r);
    var before := PlacesBefore(s);
    var dest := MoveDestination(|before|, it.destinationIndex.value);
    MovedPlaces(before, it.targetIndex - 1, dest);
    MovedIsPermutation(before, PlacesAfter(s, r), it.targetIndex - 1, dest);
  }

  /** A REPLACE step that edited: the search found a place and it overwrote the named slot. */
  lemma ReplaceEdit(s: ChatState, env: SearchEnv, it: ChatIntent, roadmap: Roadmap, di: nat, r: ChatState)
    requires StepArgs(s, it, roadmap, di) && 0 <= it.targetIndex - 1 < |roadmap.days[di].places|
    requires r == ReplaceStep(s, env, it, roadmap, di) && r.modifiedItinerary != s.modifiedItinerary
    ensures var places := roadmap.days[di].places;
      |r.searchResults| > 0
      && r.modifiedItinerary.value.days[di].places == places[it.targetIndex - 1 := PlaceToCoursePlace(r.searchResults[0], it.targetIndex)]
      && r.diffKeys == [BuildDiffKey(it.targetDay, it.targetIndex)]
  {
  }

  /** A completed REPLACE: only the named slot changes, to the top search result numbered with the target index. */
  lemma MutateReplace(s: ChatState, env: SearchEnv)
    requires MoveIndexPresent(s) && s.intent.Some? && s.intent.value.op.Replace?
    requires MutateNode(s, env).modifiedItinerary != s.modifiedItinerary
    ensures EditOf(s, MutateNode(s, env))
    ensures var r := MutateNode(s, env); var before := PlacesBefore(s); var after := PlacesAfter(s, r);
      var ti := s.intent.value.targetIndex;
      1 <= ti <= |before| && |after| == |before| && |r.searchResults| > 0
      && after[ti - 1] == PlaceToCoursePlace(r.searchResults[0], ti)
      && (forall k :: 0 <= k < |before| && k != ti - 1 ==> after[k] == before[k])
      && r.diffKeys == [BuildDiffKey(s.intent.value.targetDay, ti)]
  {
    var r := MutateNode(s, env);
    EditedRequest(s, env);
    NodeSteps(s, env);
    ReplaceEdit(s, env, s.intent.value, s.currentItinerary.value, TargetPos(s), r);
  }

  /** The guards that reject an edit leave the itinerary and the diff keys alone. */
  lemma MutateRejections(s: ChatState, env: SearchEnv)
    requires MoveIndexPresent(s) && Targeted(s)
    ensures var r := MutateNode(s, env); var it := s.intent.value; var before := PlacesBefore(s);
      var rejected := r.status == Some(Rejected) && r.modifiedItinerary == s.modifiedItinerary && r.diffKeys == s.diffKeys;
      (it.op.Add? && |before| >= MaxPlacesPerDay ==> rejected && r.changeSummary == AddLimitSummary)
      && (it.op.Remove? && 1 <= it.targetIndex <= |before| && |before| <= MinPlacesPerDay ==> rejected && r.changeSummary == RemoveLimitSummary)
      && (it.op.Move? && 1 <= it.targetIndex <= |before| && it.destinationDay != Some(it.targetDay) ==> rejected && r.changeSummary == CrossDaySummary)
  {
  }

  /** The error each invalid request gets; none of them writes an itinerary. */
  lemma MutateErrors(s: ChatState, env: SearchEnv)
    requires MoveIndexPresent(s)
    ensures var r := MutateNode(s, env);
      (s.intent.None? || s.currentItinerary.None? ==> r == s.(error := Some(MissingInputError)))
      && (s.intent.Some? && s.currentItinerary.Some? && !Targeted(s) ==> r == s.(error := Some(DayMissingError(s.intent.value.targetDay))))
      && (Targeted(s) && !s.intent.value.op.Add? && !(1 <= s.intent.value.targetIndex <= |PlacesBefore(s)|) ==>
            r == s.(error := Some(IndexMissingError(s.intent.value.targetDay, s.intent.value.targetIndex))))
      && (Targeted(s) && s.intent.value.op.Add? && |PlacesBefore(s)| < MaxPlacesPerDay
          && !(1 <= s.intent.value.targetIndex <= |PlacesBefore(s)| + 1) ==>
            r == s.(error := Some(AddPositionError(s.intent.value.targetDay, s.intent.value.targetIndex))))
  {
  }

  /** A REPLACE or ADD that passed its guards but has no search keyword fails before any search, keeping no results. */
  lemma MutateNeedsKeyword(s: ChatState, env: SearchEnv)
    requires MoveIndexPresent(s) && Targeted(s)
    requires var it := s.intent.value; var n := |PlacesBefore(s)|;
      (it.op.Replace? && 1 <= it.targetIndex <= n) || (it.op.Add? && n < MaxPlacesPerDay && 1 <= it.targetIndex <= n + 1)
    requires s.intent.value.searchKeyword.None? || |s.intent.value.searchKeyword.value| == 0
    ensures MutateNode(s, env) == s.(searchResults := [], error := Some(NoKeywordError))
  {
  }

  /** Every day of a roadmap holds between 1 and 10 places. */
  predicate DaySizesOk(rm: Roadmap)
  {
    forall i :: 0 <= i < |rm.days| ==> MinPlacesPerDay <= |rm.days[i].places| <= MaxPlacesPerDay
  }

  /** An edit keeps every day between 1 and 10 places. */
  lemma MutateKeepsDaySizes(s: ChatState, env: SearchEnv)
    requires MoveIndexPresent(s) && s.currentItinerary.Some? && DaySizesOk(s.currentItinerary.value)
    requires MutateNode(s, env).modifiedItinerary != s.modifiedItinerary
    ensures MutateNode(s, env).modifiedItinerary.Some? && DaySizesOk(MutateNode(s, env).modifiedItinerary.value)
  {
    MutateOutcome(s, env);
    var r := MutateNode(s, env);
    var di := TargetPos(s);
    match s.intent.value.op
    case Replace => MutateReplace(s, env);
    case Add => MutateAdd(s, env);
    case Remove => MutateRemove(s, env);
    case Move => MutateMove(s, env);
    assert forall i :: 0 <= i < |r.modifiedItinerary.value.days| && i != di ==>
      r.modifiedItinerary.value.days[i] == s.currentItinerary.value.days[i];
  }
}
