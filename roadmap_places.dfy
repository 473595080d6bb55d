/**
 * The per-slot helpers of the roadmap place search
 * (`app/graph/roadmap/nodes/places.py`): the budget's price levels, the
 * food-keyword test that decides whether a slot's search is priced, the
 * move-selected-first reordering a rerank applies, and the fallback chain
 * of searches one slot goes through.
 *
 * The Places service is an oracle from the arguments of one `search` call
 * to its results, `None` standing for the call raising. The hard filter
 * by the region box is `ChatMutate.HardFilterByBbox`: the chat graph's
 * `_hard_filter_by_bbox` is the same function.
 */
module RoadmapPlaces {
  import opened Wrappers
  import opened PyText
  import opened PyList
  import opened Itinerary
  import opened Geo
  import CourseSchema
  import RoadmapUtils
  import ChatMutate

  // ---------------------------------------------------------------- price levels

  /**
   * `_map_budget_to_price_levels`: one Places price level per budget; `None`
   * for a missing or empty budget and for a text that is no budget.
   */
  function PriceLevels(budget: Option<CourseSchema.RawEnum<CourseSchema.BudgetRange>>): (r: Option<seq<string>>)
    ensures r.Some? <==> budget.Some? && budget.value.Member?
    ensures r.Some? ==> |r.value| == 1 && StartsWith(r.value[0], "PRICE_LEVEL_")
  {
    if budget.None? || budget.value.NonMember? then None
    else match budget.value.member
      case Low => Some(["PRICE_LEVEL_INEXPENSIVE"])
      case Mid => Some(["PRICE_LEVEL_MODERATE"])
      case High => Some(["PRICE_LEVEL_EXPENSIVE"])
      case Luxury => Some(["PRICE_LEVEL_VERY_EXPENSIVE"])
  }

  /** Distinct budgets ask for distinct price levels. */
  lemma PriceLevelsInjective(a: CourseSchema.BudgetRange, b: CourseSchema.BudgetRange)
    requires PriceLevels(Some(CourseSchema.Member(a))) == PriceLevels(Some(CourseSchema.Member(b)))
    ensures a == b
  {
  }

  /** `not price_levels`: `None` and the empty list are both falsy. */
  predicate Truthy(levels: Option<seq<string>>) { levels.Some? && |levels.value| > 0 }

  // ---------------------------------------------------------------- food keywords

  const FoodKeywordHints: seq<string> := [
    "맛집", "식당", "레스토랑", "한식", "양식", "중식", "일식", "분식", "뷔페", "카페", "커피",
    "베이커리", "브런치", "디저트", "bar", "pub", "izakaya", "bbq", "bistro", "restaurant", "cafe",
    "coffee", "bakery", "dessert", "brunch"]

  /** Whether one of `hints` occurs in `text`. */
  function AnyHintIn(text: string, hints: seq<string>): (r: bool)
    ensures r <==> exists i :: 0 <= i < |hints| && Contains(text, hints[i])
    decreases |hints|
  {
    if |hints| == 0 then false
    else if Contains(text, hints[0]) then true
    else
      var rest := AnyHintIn(text, hints[1..]);
      assert forall i :: 1 <= i < |hints| ==> hints[i] == hints[1..][i - 1];
      rest
  }

  /**
   * `_is_food_keyword`: the stripped, lower-cased keyword is not empty and
   * holds one of the food hints.
   */
  function IsFoodKeyword(keyword: string): (r: bool)
    ensures r <==> |Strip(keyword)| > 0
                   && exists i :: 0 <= i < |FoodKeywordHints| && Contains(Lower(Strip(keyword)), FoodKeywordHints[i])
  {
    var normalized := Lower(Strip(keyword));
    if |normalized| == 0 then false else AnyHintIn(normalized, FoodKeywordHints)
  }

  /** Stripping the keyword first does not change the answer. */
  lemma FoodKeywordStripped(keyword: string)
    ensures IsFoodKeyword(Strip(keyword)) == IsFoodKeyword(keyword)
  {
    RoadmapUtils.StripIdempotent(Strip(keyword));
  }

  /** A blank keyword is never a food keyword. */
  lemma BlankNotFood()
    ensures !IsFoodKeyword("") && !IsFoodKeyword("   ")
  {
    assert Strip("   ") == "" by { assert LStrip("   ") == ""; }
  }

  /** A keyword that starts with "cafe" is a food keyword. */
  lemma CafeIsFood(rest: string)
    ensures IsFoodKeyword("cafe" + rest)
  {
    NoLeadingSpace("cafe", rest);
  }

  /** A keyword that starts with "맛집" is a food keyword. */
  lemma MatjipIsFood(rest: string)
    ensures IsFoodKeyword("맛집" + rest)
  {
    NoLeadingSpace("맛집", rest);
  }

  /** A keyword led by a lower-case hint is a food keyword. */
  lemma NoLeadingSpace(hint: string, rest: string)
    requires hint in FoodKeywordHints && |hint| > 0 && !IsSpace(hint[0]) && !IsSpace(hint[|hint| - 1])
    requires forall i :: 0 <= i < |hint| ==> LowerChar(hint[i]) == hint[i]
    ensures IsFoodKeyword(hint + rest)
  {
    var i :| 0 <= i < |FoodKeywordHints| && FoodKeywordHints[i] == hint;
    NormalizedKeeps(hint, rest);
  }

  /** Stripping and lower-casing keep a leading lower-case piece without spaces at its ends. */
  lemma NormalizedKeeps(hint: string, rest: string)
    requires |hint| > 0 && !IsSpace(hint[0]) && !IsSpace(hint[|hint| - 1])
    requires forall i :: 0 <= i < |hint| ==> LowerChar(hint[i]) == hint[i]
    ensures |Strip(hint + rest)| > 0 && Contains(Lower(Strip(hint + rest)), hint)
  {
    var k := hint + rest;
    assert k[0] == hint[0];
    assert LStrip(k) == k;
    assert k[|hint| - 1] == hint[|hint| - 1];
    RStripKeeps(k, |hint|);
    var s := Strip(k);
    assert s[..|hint|] == k[..|hint|] == hint;
    var n := Lower(s);
    forall j | 0 <= j < |hint| ensures n[j] == hint[j] {
      assert s[j] == hint[j];
    }
    assert n[..|hint|] == hint;
    ContainsPrefix(n, hint);
  }

  /** Right-stripping never removes a non-space character or anything before it. */
  lemma {:induction false} RStripKeeps(k: string, m: nat)
    requires 0 < m <= |k| && !IsSpace(k[m - 1])
    ensures |RStrip(k)| >= m && RStrip(k)[..m] == k[..m]
    decreases |k|
  {
    if |k| > m && IsSpace(k[|k| - 1]) {
      RStripKeeps(k[..|k| - 1], m);
      assert k[..|k| - 1][..m] == k[..m];
    }
  }

  // ---------------------------------------------------------------- per-slot price levels

  /**
   * `_price_levels_for_slot`: the budget's levels, for a food slot only, and
   * only when there are levels at all.
   */
  function PriceLevelsForSlot(slot: RoadmapUtils.Slot, base: Option<seq<string>>): (r: Option<seq<string>>)
    ensures r.Some? <==> Truthy(base) && IsFoodKeyword(slot.keyword)
    ensures r.Some? ==> r == base
  {
    if !Truthy(base) then None
    else
      var keyword := Strip(slot.keyword);
      FoodKeywordStripped(slot.keyword);
      if !IsFoodKeyword(keyword) then None else base
  }

  // ---------------------------------------------------------------- move selected first

  /** The first candidate whose stripped `place_id` is `id`. */
  function FirstStrippedIndex(places: seq<Candidate>, id: string): (r: Option<nat>)
    ensures r.Some? ==> r.value < |places| && Strip(places[r.value].placeId) == id
    ensures r.Some? ==> forall j :: 0 <= j < r.value ==> Strip(places[j].placeId) != id
    ensures r.None? ==> forall j :: 0 <= j < |places| ==> Strip(places[j].placeId) != id
    decreases |places|
  {
    if |places| == 0 then None
    else if Strip(places[0].placeId) == id then Some(0)
    else match FirstStrippedIndex(places[1..], id)
      case None => None
      case Some(i) => Some(i + 1)
  }

  /**
   * `_move_selected_first`: the first candidate with the selected id moved
   * to the front, the others keeping their order; it reports a change
   * exactly when that candidate was not already first.
   */
  function MoveSelectedFirst(places: seq<Candidate>, id: string): (r: (seq<Candidate>, bool))
    ensures |r.0| == |places| && multiset(r.0) == multiset(places)
    ensures var k := FirstStrippedIndex(places, id); r.1 <==> k.Some? && k.value > 0
    ensures !r.1 ==> r.0 == places
    ensures var k := FirstStrippedIndex(places, id);
      r.1 ==> r.0[0] == places[k.value] && r.0[1..] == places[..k.value] + places[k.value + 1..]
    ensures (exists j :: 0 <= j < |places| && Strip(places[j].placeId) == id) ==> Strip(r.0[0].placeId) == id
  {
    var k := FirstStrippedIndex(places, id);
    if k.None? || k.value == 0 then (places, false)
    else
      var rest := RemoveAt(places, k.value);
      RemoveAtMultiset(places, k.value);
      assert ([places[k.value]] + rest)[1..] == rest;
      ([places[k.value]] + rest, true)
  }

  /** Moving the same selection a second time changes nothing. */
  lemma MoveSelectedFirstStable(places: seq<Candidate>, id: string)
    ensures var once := MoveSelectedFirst(places, id).0;
      MoveSelectedFirst(once, id) == (once, false)
  {
    var once := MoveSelectedFirst(places, id).0;
    var k := FirstStrippedIndex(places, id);
    if k.Some? {
      assert Strip(once[0].placeId) == id;
      assert FirstStrippedIndex(once, id) == Some(0);
    } else {
      assert once == places;
    }
  }

  // ---------------------------------------------------------------- hard filter

  /** The candidates inside the box, kept in their order: the filter taken one candidate at a time from the end. */
  function InRegion(places: seq<Candidate>, bbox: Rect): (r: seq<Candidate>)
    ensures |r| <= |places|
    ensures forall i :: 0 <= i < |r| ==> bbox.Contains(r[i].latitude, r[i].longitude)
    decreases |places|
  {
    if |places| == 0 then []
    else
      var n := |places| - 1;
      InRegion(places[..n], bbox) + (if bbox.Contains(places[n].latitude, places[n].longitude) then [places[n]] else [])
  }

  /** The positions of the candidates inside the box, in increasing order. */
  function InRegionPositions(places: seq<Candidate>, bbox: Rect): (idx: seq<nat>)
    ensures forall k :: 0 <= k < |idx| ==> idx[k] < |places|
    decreases |places|
  {
    if |places| == 0 then []
    else
      var n := |places| - 1;
      InRegionPositions(places[..n], bbox) + (if bbox.Contains(places[n].latitude, places[n].longitude) then [n] else [])
  }

  /**
   * The in-box candidates are the candidates at increasing positions, and
   * every in-box position is among them: the filter keeps the original order.
   */
  lemma {:induction false} InRegionInOrder(places: seq<Candidate>, bbox: Rect)
    ensures var r := InRegion(places, bbox); var idx := InRegionPositions(places, bbox);
      |idx| == |r|
      && (forall k :: 0 <= k < |idx| ==> r[k] == places[idx[k]])
      && (forall k, l :: 0 <= k < l < |idx| ==> idx[k] < idx[l])
      && (forall p :: 0 <= p < |places| && bbox.Contains(places[p].latitude, places[p].longitude) ==> p in idx)
    decreases |places|
  {
    if |places| == 0 {
      return;
    }
    var n := |places| - 1;
    var init := places[..n];
    InRegionInOrder(init, bbox);
    var prev := InRegionPositions(init, bbox);
    var idx := InRegionPositions(places, bbox);
    var rp := InRegion(init, bbox);
    var r := InRegion(places, bbox);
    forall k | 0 <= k < |idx|
      ensures r[k] == places[idx[k]]
    {
      if k < |prev| {
        assert r[k] == rp[k] == init[prev[k]];
      }
    }
    forall p | 0 <= p < |places| && bbox.Contains(places[p].latitude, places[p].longitude)
      ensures p in idx
    {
      if p < n {
        assert init[p] == places[p];
        assert p in prev;
      }
    }
  }

  /** Filtering a concatenation filters each part. */
  lemma {:induction false} InRegionAppend(a: seq<Candidate>, b: seq<Candidate>, bbox: Rect)
    ensures InRegion(a + b, bbox) == InRegion(a, bbox) + InRegion(b, bbox)
    decreases |b|
  {
    if |b| == 0 {
      assert a + b == a;
    } else {
      var n := |b| - 1;
      InRegionAppend(a, b[..n], bbox);
      assert (a + b)[..|a| + n] == a + b[..n];
      assert (a + b)[|a| + n] == b[n];
    }
  }

  /** The filter taken from the front: the first candidate, then the rest. */
  lemma InRegionCons(places: seq<Candidate>, bbox: Rect)
    requires |places| > 0
    ensures InRegion(places, bbox)
      == (if bbox.Contains(places[0].latitude, places[0].longitude) then [places[0]] else []) + InRegion(places[1..], bbox)
  {
    InRegionAppend(places[..1], places[1..], bbox);
    assert places[..1] + places[1..] == places;
    assert places[..1][..0] == [];
  }

  /** `InRegion` is the hard filter's list: both keep the in-box candidates in order. */
  lemma {:induction false} InRegionIsInBox(places: seq<Candidate>, bbox: Rect)
    ensures InRegion(places, bbox) == ChatMutate.InBox(places, bbox)
    decreases |places|
  {
    if |places| > 0 {
      InRegionCons(places, bbox);
      InRegionIsInBox(places[1..], bbox);
    }
  }

  /**
   * `_hard_filter_by_bbox`: the candidates inside the box in their original
   * order, and the number it dropped.
   */
  lemma HardFilterInOrder(places: seq<Candidate>, bbox: Rect)
    ensures var r := ChatMutate.HardFilterByBbox(places, bbox); var idx := InRegionPositions(places, bbox);
      r.0 == InRegion(places, bbox) && r.1 == |places| - |r.0|
      && |idx| == |r.0| && (forall k :: 0 <= k < |idx| ==> r.0[k] == places[idx[k]])
      && (forall k, l :: 0 <= k < l < |idx| ==> idx[k] < idx[l])
  {
    InRegionIsInBox(places, bbox);
    InRegionInOrder(places, bbox);
  }

  // ---------------------------------------------------------------- the fallback chain

  /** The arguments of one `places_service.search` call. */
  datatype SearchCall = SearchCall(
    query: string,
    priceLevels: Option<seq<string>>,
    minRating: Option<real>,
    restriction: Option<Rect>,
    bias: Option<Rect>)

  /** The Places service: the results of one call, `None` when it raises. */
  type PlacesSearch = SearchCall -> Option<seq<Candidate>>

  /**
   * The searches a slot may go through, in order: restricted to the region
   * box; biased to it; biased to it without price levels (only when there
   * are levels); unrestricted with the minimum rating; unrestricted without
   * it. The two biased stages exist only when the region has a box.
   */
  function SearchStages(query: string, levels: Option<seq<string>>, minRating: real, bbox: Option<Rect>): (stages: seq<SearchCall>)
    ensures 3 <= |stages| <= 5
  {
    [SearchCall(query, levels, Some(minRating), bbox, None)]
    + (if bbox.Some? then [SearchCall(query, levels, Some(minRating), None, bbox)] else [])
    + (if bbox.Some? && Truthy(levels) then [SearchCall(query, None, Some(minRating), None, bbox)] else [])
    + [SearchCall(query, None, Some(minRating), None, None), SearchCall(query, None, None, None, None)]
  }

  /** A stage's results after the hard filter: box stages keep only the candidates inside the box. */
  function Kept(call: SearchCall, results: seq<Candidate>): seq<Candidate>
  {
    if call.restriction.Some? then InRegion(results, call.restriction.value)
    else if call.bias.Some? then InRegion(results, call.bias.value)
    else results
  }

  /** What a slot's search came to: its candidates and how many searches it made. */
  datatype SlotSearchRun = SlotSearchRun(candidates: seq<Candidate>, calls: nat)

  /**
   * The chain from stage `k` on: a raising search ends it with nothing; a
   * stage that keeps candidates, or the last stage, ends it with what it kept.
   */
  function StageRun(stages: seq<SearchCall>, search: PlacesSearch, k: nat): SlotSearchRun
    requires k < |stages|
    decreases |stages| - k
  {
    var got := search(stages[k]);
    if got.None? then SlotSearchRun([], k + 1)
    else
      var kept := Kept(stages[k], got.value);
      if |kept| > 0 || k == |stages| - 1 then SlotSearchRun(kept, k + 1)
      else StageRun(stages, search, k + 1)
  }

  /** One step of the chain: how stage `k` ends it or passes it on. */
  lemma StageStep(stages: seq<SearchCall>, search: PlacesSearch, k: nat)
    requires k < |stages|
    ensures search(stages[k]).None? ==> StageRun(stages, search, k) == SlotSearchRun([], k + 1)
    ensures search(stages[k]).Some? && (|Kept(stages[k], search(stages[k]).value)| > 0 || k == |stages| - 1)
            ==> StageRun(stages, search, k) == SlotSearchRun(Kept(stages[k], search(stages[k]).value), k + 1)
    ensures search(stages[k]).Some? && |Kept(stages[k], search(stages[k]).value)| == 0 && k < |stages| - 1
            ==> StageRun(stages, search, k) == StageRun(stages, search, k + 1)
  {
  }

  /** `search_for_slot`'s outcome for a query, its price levels, the minimum rating and the region box. */
  function SlotSearch(query: string, levels: Option<seq<string>>, minRating: real, bbox: Option<Rect>,
                      search: PlacesSearch): SlotSearchRun
  {
    StageRun(SearchStages(query, levels, minRating, bbox), search, 0)
  }

  /**
   * The chain from stage `k`: it makes at least one more search; every
   * search before its last returned, and kept nothing; a last search that
   * raised leaves no candidates; otherwise the candidates are what the last
   * stage kept, and they are empty only when every stage ran.
   */
  lemma {:induction false} StageRunSpec(stages: seq<SearchCall>, search: PlacesSearch, k: nat)
    requires k < |stages|
    ensures var r := StageRun(stages, search, k);
      k < r.calls <= |stages|
      && (forall j :: k <= j < r.calls - 1 ==> search(stages[j]).Some? && |Kept(stages[j], search(stages[j]).value)| == 0)
      && (search(stages[r.calls - 1]).None? ==> |r.candidates| == 0)
      && (search(stages[r.calls - 1]).Some? ==>
            r.candidates == Kept(stages[r.calls - 1], search(stages[r.calls - 1]).value)
            && (|r.candidates| > 0 || r.calls == |stages|))
    decreases |stages| - k
  {
    hide StageRun, Kept;
    StageStep(stages, search, k);
    var got := search(stages[k]);
    if got.Some? && |Kept(stages[k], got.value)| == 0 && k < |stages| - 1 {
      StageRunSpec(stages, search, k + 1);
      assert StageRun(stages, search, k) == StageRun(stages, search, k + 1);
    } else if got.None? {
      assert StageRun(stages, search, k) == SlotSearchRun([], k + 1);
    } else {
      assert StageRun(stages, search, k) == SlotSearchRun(Kept(stages[k], got.value), k + 1);
    }
  }

  /**
   * A slot's search makes between one and all of its stage searches, each
   * after the one before found nothing; it keeps what its last search kept,
   * or nothing when that search raised; candidates from a box stage lie in
   * the region box.
   */
  lemma SlotSearchSpec(query: string, levels: Option<seq<string>>, minRating: real, bbox: Option<Rect>, search: PlacesSearch)
    ensures var stages := SearchStages(query, levels, minRating, bbox); var r := SlotSearch(query, levels, minRating, bbox, search);
      1 <= r.calls <= |stages|
      && (forall j :: 0 <= j < r.calls - 1 ==> search(stages[j]).Some? && |Kept(stages[j], search(stages[j]).value)| == 0)
      && (search(stages[r.calls - 1]).None? ==> r.candidates == [])
      && (search(stages[r.calls - 1]).Some? ==> r.candidates == Kept(stages[r.calls - 1], search(stages[r.calls - 1]).value))
      && (|r.candidates| == 0 ==> r.calls == |stages| || search(stages[r.calls - 1]).None?)
    ensures var stages := SearchStages(query, levels, minRating, bbox); var r := SlotSearch(query, levels, minRating, bbox, search);
      bbox.Some? && (stages[r.calls - 1].restriction.Some? || stages[r.calls - 1].bias.Some?) ==>
        forall c :: 0 <= c < |r.candidates| ==> bbox.value.Contains(r.candidates[c].latitude, r.candidates[c].longitude)
  {
    var stages := SearchStages(query, levels, minRating, bbox);
    StageRunSpec(stages, search, 0);
    var r := SlotSearch(query, levels, minRating, bbox, search);
    var last := stages[r.calls - 1];
    assert last.restriction.Some? ==> last.restriction == bbox;
    assert last.bias.Some? ==> last.bias == bbox;
  }

  /** Without a region box the chain is the priced search and then the two unrestricted ones. */
  lemma NoBoxStages(query: string, levels: Option<seq<string>>, minRating: real)
    ensures SearchStages(query, levels, minRating, None)
      == [SearchCall(query, levels, Some(minRating), None, None),
          SearchCall(query, None, Some(minRating), None, None),
          SearchCall(query, None, None, None, None)]
  {
  }

  /** The price-less biased stage is tried only for a priced search in a region with a box. */
  lemma BiasWithoutPriceOnlyWhenPriced(query: string, levels: Option<seq<string>>, minRating: real, bbox: Option<Rect>)
    ensures var stages := SearchStages(query, levels, minRating, bbox);
      |stages| == 5 <==> bbox.Some? && Truthy(levels)
    ensures bbox.Some? ==> SearchStages(query, levels, minRating, bbox)[1] == SearchCall(query, levels, Some(minRating), None, bbox)
  {
  }

  /** A search that raises at once gives the slot no candidates after one call. */
  lemma RaisingSearchGivesNothing(query: string, levels: Option<seq<string>>, minRating: real, bbox: Option<Rect>, search: PlacesSearch)
    requires search(SearchCall(query, levels, Some(minRating), bbox, None)).None?
    ensures SlotSearch(query, levels, minRating, bbox, search) == SlotSearchRun([], 1)
  {
  }

  /** The hard filter's kept list, as the roadmap search uses it. */
  method HardFilter(places: seq<Candidate>, bbox: Rect) returns (kept: seq<Candidate>)
    ensures kept == InRegion(places, bbox)
  {
    kept := ChatMutate.HardFilterByBbox(places, bbox).0;
    InRegionIsInBox(places, bbox);
  }

  /** Where the chain stands after `calls` searches that left `places`, or after one that raised. */
  ghost predicate ChainAt(stages: seq<SearchCall>, search: PlacesSearch, raised: bool, places: seq<Candidate>, calls: nat)
  {
    0 < calls <= |stages|
    && if raised then StageRun(stages, search, 0) == SlotSearchRun([], calls)
       else if |places| > 0 || calls == |stages| then StageRun(stages, search, 0) == SlotSearchRun(places, calls)
       else StageRun(stages, search, 0) == StageRun(stages, search, calls)
  }

  /**
   * One stage of `search_for_slot`: the search, and for a box stage the hard
   * filter of what it found; `raised` when the search raised.
   */
  method TryStage(ghost stages: seq<SearchCall>, search: PlacesSearch, call: SearchCall, box: Option<Rect>, calls: nat)
    returns (raised: bool, places: seq<Candidate>, next: nat)
    requires calls < |stages| && stages[calls] == call
    requires box == if call.restriction.Some? then call.restriction else call.bias
    requires calls == 0 || (StageRun(stages, search, 0) == StageRun(stages, search, calls))
    ensures next == calls + 1 && ChainAt(stages, search, raised, places, next)
  {
    var got := search(call);
    next := calls + 1;
    if got.None? {
      return true, [], next;
    }
    places := got.value;
    if box.Some? && |places| > 0 {
      places := HardFilter(places, box.value);
    }
    raised := false;
    assert places == Kept(call, got.value);
  }

  /**
   * `search_for_slot`: the searches of the chain one after the other, each
   * tried only when the ones before found nothing, the box stages
   * hard-filtered; `[]` when a search raises. Returns the candidates and the
   * number of searches made.
   */
  method SearchForSlot(query: string, levels: Option<seq<string>>, minRating: real, bbox: Option<Rect>, search: PlacesSearch)
    returns (candidates: seq<Candidate>, calls: nat)
    ensures SlotSearchRun(candidates, calls) == SlotSearch(query, levels, minRating, bbox, search)
  {
    ghost var stages := SearchStages(query, levels, minRating, bbox);
    var raised, places;
    raised, places, calls := TryStage(stages, search, SearchCall(query, levels, Some(minRating), bbox, None), bbox, 0);
    if !raised && |places| == 0 && bbox.Some? {
      assert stages[calls] == SearchCall(query, levels, Some(minRating), None, bbox);
      raised, places, calls := TryStage(stages, search, SearchCall(query, levels, Some(minRating), None, bbox), bbox, calls);
    }
    if !raised && |places| == 0 && bbox.Some? && Truthy(levels) {
      assert stages[calls] == SearchCall(query, None, Some(minRating), None, bbox);
      raised, places, calls := TryStage(stages, search, SearchCall(query, None, Some(minRating), None, bbox), bbox, calls);
    }
    if !raised && |places| == 0 {
      assert calls == |stages| - 2;
      assert stages[calls] == SearchCall(query, None, Some(minRating), None, None);
      raised, places, calls := TryStage(stages, search, SearchCall(query, None, Some(minRating), None, None), None, calls);
    }
    if !raised && |places| == 0 {
      assert stages[calls] == SearchCall(query, None, None, None, None);
      raised, places, calls := TryStage(stages, search, SearchCall(query, None, None, None, None), None, calls);
    }
    candidates := if raised then [] else places;
  }
}
