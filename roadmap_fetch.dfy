/**
 * The place-fetch node of the roadmap graph, `fetch_places_from_slots`
 * (`app/graph/roadmap/nodes/places.py`): one search task per skeleton slot
 * with a query (a slot without one gets `[]` at once), each task's fallback
 * chain, and, when the LLM rerank is on, each day's selection moved to the
 * front of its slot's candidates.
 *
 * The searches of `asyncio.gather` are independent of one another and their
 * results are stored in task order, so running them one after the other
 * gives the same map. The per-day reranks run one day after the other; the
 * concurrent version differs from this only when two days share a day
 * number. The Places service, `get_region_bbox` and the rerank LLM are
 * fields of `FetchEnv`; logging is left out.
 */
module RoadmapFetch {
  import opened Wrappers
  import opened Itinerary
  import opened Geo
  import CourseSchema
  import RoadmapUtils
  import PlaceRerank
  import opened RoadmapGraphState
  import opened RoadmapPlaces

  const MissingSkeletonError: string := "fetch_places_from_slots에는 skeleton_plan이 필요합니다."
  const NoServiceError: string := "PlacesService가 주입되지 않았습니다."

  /**
   * What the node consults besides the state: the injected Places service,
   * the one `get_google_places_service` builds (`None` when building it
   * raises), the settings it reads, `get_region_bbox`, and the rerank LLM's
   * reply for a day's payload (`None` when the call fails).
   */
  datatype FetchEnv = FetchEnv(
    injected: Option<PlacesSearch>,
    googleService: Option<PlacesSearch>,
    minRating: real,
    rerankEnabled: bool,
    maxCandidates: int,
    regionBbox: string -> Option<Rect>,
    rerankReply: (int, seq<PlaceRerank.RerankSlot>) -> Option<seq<PlaceRerank.RerankChoice>>)

  /** `(state.get("course_request") or {}).get("budget_range")`. */
  function BudgetOf(req: Option<CourseSchema.RawCourseRequest>): Option<CourseSchema.RawEnum<CourseSchema.BudgetRange>>
  {
    if req.None? then None else req.value.budgetRange
  }

  // ---------------------------------------------------------------- collecting the search tasks

  /** One search of `tasks`: the slot key, the query, its price levels and the day's region. */
  datatype SearchTask = SearchTask(slotKey: string, query: string, priceLevels: Option<seq<string>>, region: string)

  /** The map as the collection loop leaves it, and the search tasks it collected. */
  datatype Collected = Collected(fetched: map<string, seq<Candidate>>, tasks: seq<SearchTask>)

  /** The search task of a day's `i`-th slot: its key, its query, its price levels and the day's region. */
  function SlotTask(day: PlanDay, base: Option<seq<string>>, i: nat): SearchTask
    requires i < |day.slots|
  {
    SearchTask(RoadmapUtils.BuildSlotKey(day.dayNumber, i), RoadmapUtils.BuildSearchQuery(day.slots[i]),
               PriceLevelsForSlot(day.slots[i], base), day.region)
  }

  /** One turn of the collection loop: a slot with a query becomes a task, one without gets `[]`. */
  function CollectSlot(c: Collected, day: PlanDay, base: Option<seq<string>>, i: nat): Collected
    requires i < |day.slots|
  {
    var t := SlotTask(day, base, i);
    if |t.query| > 0 then Collected(c.fetched, c.tasks + [t]) else Collected(c.fetched[t.slotKey := []], c.tasks)
  }

  /** The collection loop over the first `n` slots of a day. */
  function CollectSlots(c: Collected, day: PlanDay, base: Option<seq<string>>, n: nat): Collected
    requires n <= |day.slots|
    decreases n
  {
    if n == 0 then c else CollectSlot(CollectSlots(c, day, base, n - 1), day, base, n - 1)
  }

  /** The collection loop over the first `n` days. */
  function CollectDays(plan: seq<PlanDay>, base: Option<seq<string>>, n: nat): Collected
    requires n <= |plan|
    decreases n
  {
    if n == 0 then Collected(map[], [])
    else CollectSlots(CollectDays(plan, base, n - 1), plan[n - 1], base, |plan[n - 1].slots|)
  }

  // ---------------------------------------------------------------- searching

  /** What `search_for_slot` returns for a task. */
  function TaskResult(t: SearchTask, search: PlacesSearch, env: FetchEnv): seq<Candidate>
  {
    SlotSearch(t.query, t.priceLevels, env.minRating, env.regionBbox(t.region), search).candidates
  }

  /** The map after the results of the first `n` tasks are stored in order. */
  function SearchedFrom(fetched: map<string, seq<Candidate>>, tasks: seq<SearchTask>, search: PlacesSearch, env: FetchEnv, n: nat)
    : map<string, seq<Candidate>>
    requires n <= |tasks|
    decreases n
  {
    if n == 0 then fetched
    else SearchedFrom(fetched, tasks, search, env, n - 1)[tasks[n - 1].slotKey := TaskResult(tasks[n - 1], search, env)]
  }

  // ---------------------------------------------------------------- reranking

  /** The candidates stored for a key, `[]` when there are none. */
  function Stored(fetched: map<string, seq<Candidate>>, key: string): seq<Candidate>
  {
    if key in fetched then fetched[key] else []
  }

  /** `slots_payload` for the first `n` slots of a day: the slots with candidates, each trimmed to the maximum. */
  function DayPayload(fetched: map<string, seq<Candidate>>, day: PlanDay, maxCandidates: int, n: nat): seq<PlaceRerank.RerankSlot>
    requires n <= |day.slots|
    decreases n
  {
    if n == 0 then []
    else
      var prev := DayPayload(fetched, day, maxCandidates, n - 1);
      var slot := day.slots[n - 1];
      var key := RoadmapUtils.BuildSlotKey(day.dayNumber, n - 1);
      var candidates := Stored(fetched, key);
      if |candidates| == 0 then prev
      else prev + [PlaceRerank.RerankSlot(key, slot.section, slot.area, slot.keyword, PyList.Take(candidates, maxCandidates))]
  }

  /** The selection applied to the first `n` payload slots: a slot with a selected id gets it moved first. */
  function ApplySelection(fetched: map<string, seq<Candidate>>, payload: seq<PlaceRerank.RerankSlot>, sel: map<string, string>, n: nat)
    : map<string, seq<Candidate>>
    requires n <= |payload|
    decreases n
  {
    if n == 0 then fetched
    else
      var f := ApplySelection(fetched, payload, sel, n - 1);
      var key := payload[n - 1].slotKey;
      if key in sel && |sel[key]| > 0 then f[key := MoveSelectedFirst(Stored(f, key), sel[key]).0] else f
  }

  /** The selection `select_place_ids_for_day` makes for a non-empty payload. */
  function DaySelected(payload: seq<PlaceRerank.RerankSlot>, dayNumber: int, env: FetchEnv): Option<map<string, string>>
  {
    var reply := env.rerankReply(dayNumber, payload);
    if reply.None? then None else PlaceRerank.DaySelection(payload, env.maxCandidates, reply.value)
  }

  /** `rerank_for_day`: nothing to do without a payload or a selection, else the selection applied. */
  function RerankDay(fetched: map<string, seq<Candidate>>, day: PlanDay, env: FetchEnv): map<string, seq<Candidate>>
  {
    var payload := DayPayload(fetched, day, env.maxCandidates, |day.slots|);
    if |payload| == 0 then fetched
    else
      var sel := DaySelected(payload, day.dayNumber, env);
      if sel.None? then fetched else ApplySelection(fetched, payload, sel.value, |payload|)
  }

  /** The reranks of the first `n` days, one after the other. */
  function RerankDays(fetched: map<string, seq<Candidate>>, plan: seq<PlanDay>, env: FetchEnv, n: nat): map<string, seq<Candidate>>
    requires n <= |plan|
    decreases n
  {
    if n == 0 then fetched else RerankDay(RerankDays(fetched, plan, env, n - 1), plan[n - 1], env)
  }

  // ---------------------------------------------------------------- the node

  /** The service the node searches with: the injected one, else the built one. */
  function ServiceOf(env: FetchEnv): PlacesSearch
    requires env.injected.Some? || env.googleService.Some?
  {
    if env.injected.Some? then env.injected.value else env.googleService.value
  }

  /** The `fetched_places` map for a plan. */
  function FetchedFor(plan: seq<PlanDay>, search: PlacesSearch, base: Option<seq<string>>, env: FetchEnv): map<string, seq<Candidate>>
  {
    var c := CollectDays(plan, base, |plan|);
    var searched := SearchedFrom(c.fetched, c.tasks, search, env, |c.tasks|);
    if env.rerankEnabled then RerankDays(searched, plan, env, |plan|) else searched
  }

  /** `fetch_places_from_slots`. */
  function FetchPlaces(state: RoadmapState, env: FetchEnv): RoadmapState
  {
    if HasError(state) then state
    else if state.skeletonPlan.None? || |state.skeletonPlan.value| == 0 then state.(error := Some(MissingSkeletonError))
    else if env.injected.None? && env.googleService.None? then state.(error := Some(NoServiceError))
    else state.(fetchedPlaces := Some(FetchedFor(state.skeletonPlan.value, ServiceOf(env), PriceLevels(BudgetOf(state.courseRequest)), env)))
  }

  // ---------------------------------------------------------------- methods

  /** The loop over the days and their slots that builds the search tasks and stores `[]` for slots without a query. */
  method CollectTasks(plan: seq<PlanDay>, base: Option<seq<string>>)
    returns (fetched: map<string, seq<Candidate>>, tasks: seq<SearchTask>)
    ensures Collected(fetched, tasks) == CollectDays(plan, base, |plan|)
  {
    fetched := map[];
    tasks := [];
    var d := 0;
    while d < |plan|
      invariant 0 <= d <= |plan|
      invariant Collected(fetched, tasks) == CollectDays(plan, base, d)
    {
      CollectDaysStep(plan, base, d);
      fetched, tasks := CollectDay(fetched, tasks, plan[d], base);
      d := d + 1;
    }
  }

  lemma CollectDaysStep(plan: seq<PlanDay>, base: Option<seq<string>>, d: nat)
    requires d < |plan|
    ensures CollectDays(plan, base, d + 1) == CollectSlots(CollectDays(plan, base, d), plan[d], base, |plan[d].slots|)
  {
  }

  /** The slots of one day collected onto what the earlier days gave. */
  method CollectDay(fetched0: map<string, seq<Candidate>>, tasks0: seq<SearchTask>, day: PlanDay, base: Option<seq<string>>)
    returns (fetched: map<string, seq<Candidate>>, tasks: seq<SearchTask>)
    ensures Collected(fetched, tasks) == CollectSlots(Collected(fetched0, tasks0), day, base, |day.slots|)
  {
    fetched, tasks := fetched0, tasks0;
    var i := 0;
    while i < |day.slots|
      invariant 0 <= i <= |day.slots|
      invariant Collected(fetched, tasks) == CollectSlots(Collected(fetched0, tasks0), day, base, i)
    {
      var slot := day.slots[i];
      var key := RoadmapUtils.BuildSlotKey(day.dayNumber, i);
      var query := RoadmapUtils.BuildSearchQuery(slot);
      if |query| > 0 {
        tasks := tasks + [SearchTask(key, query, PriceLevelsForSlot(slot, base), day.region)];
      } else {
        fetched := fetched[key := []];
      }
      i := i + 1;
    }
  }

  /** The searches of all tasks, their results stored in task order. */
  method SearchAll(fetched: map<string, seq<Candidate>>, tasks: seq<SearchTask>, search: PlacesSearch, env: FetchEnv)
    returns (out: map<string, seq<Candidate>>)
    ensures out == SearchedFrom(fetched, tasks, search, env, |tasks|)
  {
    out := fetched;
    var k := 0;
    while k < |tasks|
      invariant 0 <= k <= |tasks|
      invariant out == SearchedFrom(fetched, tasks, search, env, k)
    {
      var t := tasks[k];
      var candidates, _ := SearchForSlot(t.query, t.priceLevels, env.minRating, env.regionBbox(t.region), search);
      out := out[t.slotKey := candidates];
      k := k + 1;
    }
  }

  /** The loop that builds `slots_payload` for a day. */
  method BuildPayload(fetched: map<string, seq<Candidate>>, day: PlanDay, maxCandidates: int)
    returns (payload: seq<PlaceRerank.RerankSlot>)
    ensures payload == DayPayload(fetched, day, maxCandidates, |day.slots|)
  {
    payload := [];
    var i := 0;
    while i < |day.slots|
      invariant 0 <= i <= |day.slots|
      invariant payload == DayPayload(fetched, day, maxCandidates, i)
    {
      var slot := day.slots[i];
      var key := RoadmapUtils.BuildSlotKey(day.dayNumber, i);
      var candidates := if key in fetched then fetched[key] else [];
      if |candidates| > 0 {
        payload := payload + [PlaceRerank.RerankSlot(key, slot.section, slot.area, slot.keyword, PyList.Take(candidates, maxCandidates))];
      }
      i := i + 1;
    }
  }

  /** The loop over the payload that moves each selected id first. */
  method MoveSelections(fetched: map<string, seq<Candidate>>, payload: seq<PlaceRerank.RerankSlot>, sel: map<string, string>)
    returns (out: map<string, seq<Candidate>>)
    ensures out == ApplySelection(fetched, payload, sel, |payload|)
  {
    out := fetched;
    var j := 0;
    while j < |payload|
      invariant 0 <= j <= |payload|
      invariant out == ApplySelection(fetched, payload, sel, j)
    {
      var key := payload[j].slotKey;
      if key in sel && |sel[key]| > 0 {
        var original := if key in out then out[key] else [];
        out := out[key := MoveSelectedFirst(original, sel[key]).0];
      }
      j := j + 1;
    }
  }

  /** `rerank_for_day`: the payload, the selection, and the selected ids moved first. */
  method RerankForDay(fetched: map<string, seq<Candidate>>, day: PlanDay, env: FetchEnv)
    returns (out: map<string, seq<Candidate>>)
    ensures out == RerankDay(fetched, day, env)
  {
    var payload := BuildPayload(fetched, day, env.maxCandidates);
    if |payload| == 0 {
      return fetched;
    }
    var selected := PlaceRerank.SelectPlaceIdsForDay(payload, env.maxCandidates, env.rerankReply(day.dayNumber, payload));
    assert selected == DaySelected(payload, day.dayNumber, env);
    if selected.None? {
      return fetched;
    }
    out := MoveSelections(fetched, payload, selected.value);
  }

  lemma RerankDaysStep(fetched: map<string, seq<Candidate>>, plan: seq<PlanDay>, env: FetchEnv, d: nat)
    requires d < |plan|
    ensures RerankDays(fetched, plan, env, d + 1) == RerankDay(RerankDays(fetched, plan, env, d), plan[d], env)
  {
  }

  /** The reranks of all days. */
  method RerankAll(fetched: map<string, seq<Candidate>>, plan: seq<PlanDay>, env: FetchEnv)
    returns (out: map<string, seq<Candidate>>)
    ensures out == RerankDays(fetched, plan, env, |plan|)
  {
    out := fetched;
    var d := 0;
    while d < |plan|
      invariant 0 <= d <= |plan|
      invariant out == RerankDays(fetched, plan, env, d)
    {
      RerankDaysStep(fetched, plan, env, d);
      out := RerankForDay(out, plan[d], env);
      d := d + 1;
    }
  }

  /** `fetch_places_from_slots`. */
  method FetchPlacesFromSlots(state: RoadmapState, env: FetchEnv) returns (out: RoadmapState)
    ensures out == FetchPlaces(state, env)
  {
    if HasError(state) {
      return state;
    }
    if state.skeletonPlan.None? || |state.skeletonPlan.value| == 0 {
      return state.(error := Some(MissingSkeletonError));
    }
    var search: PlacesSearch;
    if env.injected.Some? {
      search := env.injected.value;
    } else if env.googleService.Some? {
      search := env.googleService.value;
    } else {
      return state.(error := Some(NoServiceError));
    }
    var plan := state.skeletonPlan.value;
    var base := PriceLevels(BudgetOf(state.courseRequest));
    var fetched, tasks := CollectTasks(plan, base);
    fetched := SearchAll(fetched, tasks, search, env);
    if env.rerankEnabled {
      fetched := RerankAll(fetched, plan, env);
    }
    out := state.(fetchedPlaces := Some(fetched));
  }
}
