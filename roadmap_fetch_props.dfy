/**
 * What `fetch_places_from_slots` (`app/graph/roadmap/nodes/places.py`)
 * promises about the map it stores: a key for every skeleton slot and no
 * other, `[]` for a slot without a query, the fallback chain's result for
 * the others, and a rerank that only reorders a slot's candidates, putting
 * the chosen one first.
 */
module RoadmapFetchProps {
  import opened Wrappers
  import opened PyText
  import opened Itinerary
  import RoadmapUtils
  import PlaceRerank
  import opened RoadmapGraphState
  import opened RoadmapPlaces
  import opened RoadmapFetch

  /** The value a map holds for a key, `None` when the key is missing. */
  function At(m: map<string, seq<Candidate>>, key: string): Option<seq<Candidate>>
  {
    if key in m then Some(m[key]) else None
  }

  /** The map a collection gives once all its tasks have been searched. */
  function Resolve(c: Collected, search: PlacesSearch, env: FetchEnv): map<string, seq<Candidate>>
  {
    SearchedFrom(c.fetched, c.tasks, search, env, |c.tasks|)
  }

  /** The slot keys of the first `n` tasks. */
  function TaskKeys(tasks: seq<SearchTask>, n: nat): set<string>
    requires n <= |tasks|
    decreases n
  {
    if n == 0 then {} else TaskKeys(tasks, n - 1) + {tasks[n - 1].slotKey}
  }

  /** No slot of the day has the key. */
  predicate NotKeyOf(day: PlanDay, key: string)
  {
    forall i :: 0 <= i < |day.slots| ==> RoadmapUtils.BuildSlotKey(day.dayNumber, i) != key
  }

  /** Days with distinct day numbers, as the skeleton validation demands. */
  predicate DistinctDays(plan: seq<PlanDay>)
  {
    forall a, b :: 0 <= a < b < |plan| ==> plan[a].dayNumber != plan[b].dayNumber
  }

  /** What the search stage leaves for a slot: `[]` without a query, else its task's result. */
  function SlotValue(day: PlanDay, base: Option<seq<string>>, i: nat, search: PlacesSearch, env: FetchEnv): seq<Candidate>
    requires i < |day.slots|
  {
    var t := SlotTask(day, base, i);
    if |t.query| > 0 then TaskResult(t, search, env) else []
  }

  // ---------------------------------------------------------------- storing the results

  lemma {:induction false} TaskKeysPrefix(a: seq<SearchTask>, b: seq<SearchTask>, n: nat)
    requires n <= |a|
    ensures TaskKeys(a + b, n) == TaskKeys(a, n)
    decreases n
  {
    if n > 0 {
      TaskKeysPrefix(a, b, n - 1);
      assert (a + b)[n - 1] == a[n - 1];
    }
  }

  lemma {:induction false} SearchedPrefix(f: map<string, seq<Candidate>>, a: seq<SearchTask>, b: seq<SearchTask>,
                                          search: PlacesSearch, env: FetchEnv, n: nat)
    requires n <= |a|
    ensures SearchedFrom(f, a + b, search, env, n) == SearchedFrom(f, a, search, env, n)
    decreases n
  {
    if n > 0 {
      SearchedPrefix(f, a, b, search, env, n - 1);
      assert (a + b)[n - 1] == a[n - 1];
    }
  }

  /** A task added at the end stores its result over whatever the earlier tasks left. */
  lemma ResolveTask(f: map<string, seq<Candidate>>, tasks: seq<SearchTask>, t: SearchTask, search: PlacesSearch, env: FetchEnv)
    ensures Resolve(Collected(f, tasks + [t]), search, env)
            == Resolve(Collected(f, tasks), search, env)[t.slotKey := TaskResult(t, search, env)]
    ensures TaskKeys(tasks + [t], |tasks| + 1) == TaskKeys(tasks, |tasks|) + {t.slotKey}
  {
    ResolveTaskMap(f, tasks, t, search, env);
    ResolveTaskKeys(tasks, t);
  }

  lemma ResolveTaskMap(f: map<string, seq<Candidate>>, tasks: seq<SearchTask>, t: SearchTask, search: PlacesSearch, env: FetchEnv)
    ensures SearchedFrom(f, tasks + [t], search, env, |tasks| + 1)
            == SearchedFrom(f, tasks, search, env, |tasks|)[t.slotKey := TaskResult(t, search, env)]
  {
    var all := tasks + [t];
    assert all[|tasks|] == t;
    SearchedPrefix(f, tasks, [t], search, env, |tasks|);
  }

  lemma ResolveTaskKeys(tasks: seq<SearchTask>, t: SearchTask)
    ensures TaskKeys(tasks + [t], |tasks| + 1) == TaskKeys(tasks, |tasks|) + {t.slotKey}
  {
    var all := tasks + [t];
    assert all[|tasks|] == t;
    TaskKeysPrefix(tasks, [t], |tasks|);
  }

  /** Storing a value under one key before the searches does not change what the others get. */
  lemma {:induction false} SearchedStoreOther(f: map<string, seq<Candidate>>, tasks: seq<SearchTask>, search: PlacesSearch,
                                              env: FetchEnv, n: nat, k: string, v: seq<Candidate>, key: string)
    requires n <= |tasks| && key != k
    ensures At(SearchedFrom(f[k := v], tasks, search, env, n), key) == At(SearchedFrom(f, tasks, search, env, n), key)
    decreases n
  {
    if n > 0 { SearchedStoreOther(f, tasks, search, env, n - 1, k, v, key); }
  }

  /** A value stored under a key no task has survives the searches. */
  lemma {:induction false} SearchedStoreFresh(f: map<string, seq<Candidate>>, tasks: seq<SearchTask>, search: PlacesSearch,
                                              env: FetchEnv, n: nat, k: string, v: seq<Candidate>)
    requires n <= |tasks| && k !in TaskKeys(tasks, n)
    ensures At(SearchedFrom(f[k := v], tasks, search, env, n), k) == Some(v)
    decreases n
  {
    if n > 0 { SearchedStoreFresh(f, tasks, search, env, n - 1, k, v); }
  }

  // ---------------------------------------------------------------- one slot

  /** Adding a task for another key, or storing `[]` under another key, leaves the key's outcome alone. */
  lemma OtherKeyStep(c: Collected, t: SearchTask, search: PlacesSearch, env: FetchEnv, key: string)
    requires t.slotKey != key
    ensures var r := Collected(c.fetched, c.tasks + [t]);
      At(Resolve(r, search, env), key) == At(Resolve(c, search, env), key)
      && (key in TaskKeys(r.tasks, |r.tasks|) <==> key in TaskKeys(c.tasks, |c.tasks|))
    ensures At(Resolve(Collected(c.fetched[t.slotKey := []], c.tasks), search, env), key) == At(Resolve(c, search, env), key)
  {
    ResolveTask(c.fetched, c.tasks, t, search, env);
    SearchedStoreOther(c.fetched, c.tasks, search, env, |c.tasks|, t.slotKey, [], key);
  }

  /** A collection step for another key leaves that key's outcome alone. */
  lemma SlotOther(c: Collected, day: PlanDay, base: Option<seq<string>>, i: nat, search: PlacesSearch, env: FetchEnv, key: string)
    requires i < |day.slots| && RoadmapUtils.BuildSlotKey(day.dayNumber, i) != key
    ensures var r := CollectSlot(c, day, base, i);
      At(Resolve(r, search, env), key) == At(Resolve(c, search, env), key)
      && (key in TaskKeys(r.tasks, |r.tasks|) <==> key in TaskKeys(c.tasks, |c.tasks|))
  {
    OtherKeyStep(c, SlotTask(day, base, i), search, env, key);
  }

  /** A collection step for a key no task has yet gives that key its slot's value. */
  lemma SlotHit(c: Collected, day: PlanDay, base: Option<seq<string>>, i: nat, search: PlacesSearch, env: FetchEnv)
    requires i < |day.slots|
    requires RoadmapUtils.BuildSlotKey(day.dayNumber, i) !in TaskKeys(c.tasks, |c.tasks|)
    ensures At(Resolve(CollectSlot(c, day, base, i), search, env), RoadmapUtils.BuildSlotKey(day.dayNumber, i))
            == Some(SlotValue(day, base, i, search, env))
  {
    var t := SlotTask(day, base, i);
    if |t.query| > 0 {
      ResolveTask(c.fetched, c.tasks, t, search, env);
    } else {
      SearchedStoreFresh(c.fetched, c.tasks, search, env, |c.tasks|, t.slotKey, []);
    }
  }

  // ---------------------------------------------------------------- one day

  /** The day's slots, none of which has the key, leave the key's outcome alone. */
  lemma {:induction false} DayOther(c: Collected, day: PlanDay, base: Option<seq<string>>, n: nat,
                                    search: PlacesSearch, env: FetchEnv, key: string)
    requires n <= |day.slots|
    requires forall i :: 0 <= i < n ==> RoadmapUtils.BuildSlotKey(day.dayNumber, i) != key
    ensures var r := CollectSlots(c, day, base, n);
      At(Resolve(r, search, env), key) == At(Resolve(c, search, env), key)
      && (key in TaskKeys(r.tasks, |r.tasks|) <==> key in TaskKeys(c.tasks, |c.tasks|))
    decreases n
  {
    hide *;
    CollectSlotsStep(c, day, base, n);
    if n > 0 {
      var p := CollectSlots(c, day, base, n - 1);
      DayOther(c, day, base, n - 1, search, env, key);
      SlotOther(p, day, base, n - 1, search, env, key);
    }
  }

  lemma CollectSlotsStep(c: Collected, day: PlanDay, base: Option<seq<string>>, n: nat)
    requires n <= |day.slots|
    ensures n == 0 ==> CollectSlots(c, day, base, n) == c
    ensures n > 0 ==> CollectSlots(c, day, base, n) == CollectSlot(CollectSlots(c, day, base, n - 1), day, base, n - 1)
  {
  }

  /** A day none of whose slots has the key leaves the key's outcome alone. */
  lemma DayOtherAll(c: Collected, day: PlanDay, base: Option<seq<string>>, search: PlacesSearch, env: FetchEnv, key: string)
    requires NotKeyOf(day, key)
    ensures var r := CollectSlots(c, day, base, |day.slots|);
      At(Resolve(r, search, env), key) == At(Resolve(c, search, env), key)
      && (key in TaskKeys(r.tasks, |r.tasks|) <==> key in TaskKeys(c.tasks, |c.tasks|))
  {
    DayOther(c, day, base, |day.slots|, search, env, key);
  }

  /** Distinct slots of a day have distinct keys. */
  lemma OtherSlotKeys(day: PlanDay, i: nat, lo: nat, hi: nat)
    requires lo <= hi
    requires i < lo || hi <= i
    ensures forall j :: lo <= j < hi ==> RoadmapUtils.BuildSlotKey(day.dayNumber, j) != RoadmapUtils.BuildSlotKey(day.dayNumber, i)
  {
    forall j | lo <= j < hi
      ensures RoadmapUtils.BuildSlotKey(day.dayNumber, j) != RoadmapUtils.BuildSlotKey(day.dayNumber, i)
    {
      if RoadmapUtils.BuildSlotKey(day.dayNumber, j) == RoadmapUtils.BuildSlotKey(day.dayNumber, i) {
        RoadmapUtils.SlotKeyInjective(day.dayNumber, j, day.dayNumber, i);
      }
    }
  }

  /** The last of the first `n` slots, collected onto the others, gets its own value. */
  lemma DayHitLast(c: Collected, day: PlanDay, base: Option<seq<string>>, n: nat, i: nat, search: PlacesSearch, env: FetchEnv)
    requires i + 1 == n <= |day.slots|
    requires RoadmapUtils.BuildSlotKey(day.dayNumber, i) !in TaskKeys(c.tasks, |c.tasks|)
    ensures At(Resolve(CollectSlots(c, day, base, n), search, env), RoadmapUtils.BuildSlotKey(day.dayNumber, i))
            == Some(SlotValue(day, base, i, search, env))
  {
    var key := RoadmapUtils.BuildSlotKey(day.dayNumber, i);
    OtherSlotKeys(day, i, 0, i);
    DayOther(c, day, base, i, search, env, key);
    SlotHit(CollectSlots(c, day, base, i), day, base, i, search, env);
  }

  /** The last of the first `n` slots leaves an earlier slot's value alone. */
  lemma DayHitEarlier(c: Collected, day: PlanDay, base: Option<seq<string>>, n: nat, i: nat, search: PlacesSearch, env: FetchEnv)
    requires i < n - 1 && n <= |day.slots|
    ensures At(Resolve(CollectSlots(c, day, base, n), search, env), RoadmapUtils.BuildSlotKey(day.dayNumber, i))
            == At(Resolve(CollectSlots(c, day, base, n - 1), search, env), RoadmapUtils.BuildSlotKey(day.dayNumber, i))
  {
    var p := CollectSlots(c, day, base, n - 1);
    assert CollectSlots(c, day, base, n) == CollectSlot(p, day, base, n - 1);
    OtherSlotKeys(day, i, n - 1, n);
    SlotOther(p, day, base, n - 1, search, env, RoadmapUtils.BuildSlotKey(day.dayNumber, i));
  }

  /** Collecting a day's first `n` slots gives its `i`-th slot's key that slot's value. */
  lemma {:induction false} DayHit(c: Collected, day: PlanDay, base: Option<seq<string>>, n: nat, i: nat,
                                  search: PlacesSearch, env: FetchEnv)
    requires i < n <= |day.slots|
    requires RoadmapUtils.BuildSlotKey(day.dayNumber, i) !in TaskKeys(c.tasks, |c.tasks|)
    ensures At(Resolve(CollectSlots(c, day, base, n), search, env), RoadmapUtils.BuildSlotKey(day.dayNumber, i))
            == Some(SlotValue(day, base, i, search, env))
    decreases n
  {
    hide *;
    if i == n - 1 {
      DayHitLast(c, day, base, n, i, search, env);
    } else {
      DayHit(c, day, base, n - 1, i, search, env);
      DayHitEarlier(c, day, base, n, i, search, env);
    }
  }

  // ---------------------------------------------------------------- all days

  /** No slot of the first `n` days has the key. */
  predicate MissAll(plan: seq<PlanDay>, n: nat, key: string)
    requires n <= |plan|
    decreases n
  {
    n == 0 || (MissAll(plan, n - 1, key) && NotKeyOf(plan[n - 1], key))
  }

  /** A key that is no slot key of the first `n` days has no task and no stored value. */
  lemma {:induction false} DaysMiss(plan: seq<PlanDay>, base: Option<seq<string>>, n: nat, search: PlacesSearch, env: FetchEnv, key: string)
    requires n <= |plan| && MissAll(plan, n, key)
    ensures var c := CollectDays(plan, base, n);
      At(Resolve(c, search, env), key) == None && key !in TaskKeys(c.tasks, |c.tasks|)
    decreases n
  {
    hide *;
    if n == 0 {
      DaysMissZero(plan, base, search, env, key);
    } else {
      MissAllStep(plan, n, key);
      var p := CollectDays(plan, base, n - 1);
      CollectDaysStep(plan, base, n - 1);
      DaysMiss(plan, base, n - 1, search, env, key);
      DayOtherAll(p, plan[n - 1], base, search, env, key);
    }
  }

  lemma MissAllStep(plan: seq<PlanDay>, n: nat, key: string)
    requires 0 < n <= |plan| && MissAll(plan, n, key)
    ensures MissAll(plan, n - 1, key) && NotKeyOf(plan[n - 1], key)
  {
  }

  lemma DaysMissZero(plan: seq<PlanDay>, base: Option<seq<string>>, search: PlacesSearch, env: FetchEnv, key: string)
    ensures var c := CollectDays(plan, base, 0);
      At(Resolve(c, search, env), key) == None && key !in TaskKeys(c.tasks, |c.tasks|)
  {
  }

  /** A key no slot of the first `n` days has, stated day by day, is missed by all of them. */
  lemma {:induction false} MissAllFrom(plan: seq<PlanDay>, m: nat, n: nat, key: string)
    requires m <= n <= |plan|
    requires forall d :: 0 <= d < n ==> NotKeyOf(plan[d], key)
    ensures MissAll(plan, m, key)
    decreases m
  {
    if m > 0 {
      MissAllFrom(plan, m - 1, n, key);
    }
  }

  /** A slot key of another day number is no slot key of this day. */
  lemma OtherDayKeys(day: PlanDay, dayNumber: int, i: int)
    requires day.dayNumber != dayNumber
    ensures NotKeyOf(day, RoadmapUtils.BuildSlotKey(dayNumber, i))
  {
    forall j | 0 <= j < |day.slots|
      ensures RoadmapUtils.BuildSlotKey(day.dayNumber, j) != RoadmapUtils.BuildSlotKey(dayNumber, i)
    {
      if RoadmapUtils.BuildSlotKey(day.dayNumber, j) == RoadmapUtils.BuildSlotKey(dayNumber, i) {
        RoadmapUtils.SlotKeyInjective(day.dayNumber, j, dayNumber, i);
      }
    }
  }

  /** A slot key of a day number none of the first `n` days has is missed by all of them. */
  lemma {:induction false} MissAllOtherDays(plan: seq<PlanDay>, n: nat, dayNumber: int, i: int)
    requires n <= |plan|
    requires forall e :: 0 <= e < n ==> plan[e].dayNumber != dayNumber
    ensures MissAll(plan, n, RoadmapUtils.BuildSlotKey(dayNumber, i))
    decreases n
  {
    if n > 0 {
      MissAllOtherDays(plan, n - 1, dayNumber, i);
      OtherDayKeys(plan[n - 1], dayNumber, i);
    }
  }

  /** The last of the first `n` days gives each of its slots its value. */
  lemma DaysHitLast(plan: seq<PlanDay>, base: Option<seq<string>>, n: nat, d: nat, i: nat, search: PlacesSearch, env: FetchEnv)
    requires DistinctDays(plan)
    requires d + 1 == n <= |plan| && i < |plan[d].slots|
    ensures At(Resolve(CollectDays(plan, base, n), search, env), RoadmapUtils.BuildSlotKey(plan[d].dayNumber, i))
            == Some(SlotValue(plan[d], base, i, search, env))
  {
    hide CollectDays;
    var key := RoadmapUtils.BuildSlotKey(plan[d].dayNumber, i);
    var p := CollectDays(plan, base, d);
    CollectDaysStep(plan, base, d);
    MissAllOtherDays(plan, d, plan[d].dayNumber, i);
    assert key !in TaskKeys(p.tasks, |p.tasks|) by { DaysMiss(plan, base, d, search, env, key); }
    DayHit(p, plan[d], base, |plan[d].slots|, i, search, env);
  }

  /** The last of the first `n` days leaves the slots of an earlier day alone. */
  lemma DaysHitEarlier(plan: seq<PlanDay>, base: Option<seq<string>>, n: nat, d: nat, i: nat, search: PlacesSearch, env: FetchEnv)
    requires DistinctDays(plan)
    requires d + 1 < n <= |plan| && i < |plan[d].slots|
    ensures At(Resolve(CollectDays(plan, base, n), search, env), RoadmapUtils.BuildSlotKey(plan[d].dayNumber, i))
            == At(Resolve(CollectDays(plan, base, n - 1), search, env), RoadmapUtils.BuildSlotKey(plan[d].dayNumber, i))
  {
    assert plan[d].dayNumber != plan[n - 1].dayNumber;
    var key := RoadmapUtils.BuildSlotKey(plan[d].dayNumber, i);
    OtherDayKeys(plan[n - 1], plan[d].dayNumber, i);
    hide *;
    CollectDaysStep(plan, base, n - 1);
    DayOtherAll(CollectDays(plan, base, n - 1), plan[n - 1], base, search, env, key);
  }

  /** With distinct day numbers, the searches give every slot of the first `n` days its value. */
  lemma {:induction false} DaysHit(plan: seq<PlanDay>, base: Option<seq<string>>, n: nat, d: nat, i: nat,
                                   search: PlacesSearch, env: FetchEnv)
    requires DistinctDays(plan)
    requires d < n <= |plan| && i < |plan[d].slots|
    ensures At(Resolve(CollectDays(plan, base, n), search, env), RoadmapUtils.BuildSlotKey(plan[d].dayNumber, i))
            == Some(SlotValue(plan[d], base, i, search, env))
    decreases n
  {
    hide *;
    if d + 1 == n {
      DaysHitLast(plan, base, n, d, i, search, env);
    } else {
      DaysHit(plan, base, n - 1, d, i, search, env);
      DaysHitEarlier(plan, base, n, d, i, search, env);
    }
  }

  // ---------------------------------------------------------------- the rerank only reorders

  /** Two candidate maps hold the same keys and, under each, the same candidates in some order. */
  predicate SameCandidates(a: map<string, seq<Candidate>>, b: map<string, seq<Candidate>>)
  {
    a.Keys == b.Keys && forall k :: k in a ==> multiset(a[k]) == multiset(b[k])
  }

  lemma {:induction false} ApplySelectionReorders(fetched: map<string, seq<Candidate>>, payload: seq<PlaceRerank.RerankSlot>,
                                                  sel: map<string, string>, n: nat)
    requires n <= |payload|
    requires forall j :: 0 <= j < n ==> payload[j].slotKey in fetched
    ensures SameCandidates(ApplySelection(fetched, payload, sel, n), fetched)
    decreases n
  {
    if n > 0 {
      ApplySelectionReorders(fetched, payload, sel, n - 1);
    }
  }

  /** Every slot of a day's payload has candidates stored under its key. */
  lemma {:induction false} PayloadKeysStored(fetched: map<string, seq<Candidate>>, day: PlanDay, maxCandidates: int, n: nat)
    requires n <= |day.slots|
    ensures forall j :: 0 <= j < |DayPayload(fetched, day, maxCandidates, n)| ==>
      DayPayload(fetched, day, maxCandidates, n)[j].slotKey in fetched
    decreases n
  {
    if n > 0 {
      var prev := DayPayload(fetched, day, maxCandidates, n - 1);
      var key := RoadmapUtils.BuildSlotKey(day.dayNumber, n - 1);
      PayloadKeysStored(fetched, day, maxCandidates, n - 1);
      if |Stored(fetched, key)| > 0 {
        assert key in fetched;
        var payload := DayPayload(fetched, day, maxCandidates, n);
        assert payload == prev + [payload[|prev|]] && payload[|prev|].slotKey == key;
      }
    }
  }

  lemma SameCandidatesRefl(a: map<string, seq<Candidate>>)
    ensures SameCandidates(a, a)
  {
  }

  lemma SameCandidatesTrans(a: map<string, seq<Candidate>>, b: map<string, seq<Candidate>>, c: map<string, seq<Candidate>>)
    requires SameCandidates(a, b) && SameCandidates(b, c)
    ensures SameCandidates(a, c)
  {
  }

  /** One day's rerank keeps every key and, under each, the same candidates. */
  lemma RerankDayReorders(fetched: map<string, seq<Candidate>>, day: PlanDay, env: FetchEnv)
    ensures SameCandidates(RerankDay(fetched, day, env), fetched)
  {
    var payload := DayPayload(fetched, day, env.maxCandidates, |day.slots|);
    PayloadKeysStored(fetched, day, env.maxCandidates, |day.slots|);
    if |payload| > 0 {
      var sel := DaySelected(payload, day.dayNumber, env);
      if sel.Some? {
        ApplySelectionReorders(fetched, payload, sel.value, |payload|);
      }
    }
  }

  lemma RerankDaysZero(fetched: map<string, seq<Candidate>>, plan: seq<PlanDay>, env: FetchEnv)
    ensures RerankDays(fetched, plan, env, 0) == fetched
  {
  }

  /** The reranks of the days keep every key and, under each, the same candidates. */
  lemma {:induction false} RerankDaysReorders(fetched: map<string, seq<Candidate>>, plan: seq<PlanDay>, env: FetchEnv, n: nat)
    requires n <= |plan|
    ensures SameCandidates(RerankDays(fetched, plan, env, n), fetched)
    decreases n
  {
    hide *;
    if n == 0 {
      RerankDaysZero(fetched, plan, env);
      SameCandidatesRefl(fetched);
    } else {
      var f := RerankDays(fetched, plan, env, n - 1);
      RerankDaysStep(fetched, plan, env, n - 1);
      RerankDaysReorders(fetched, plan, env, n - 1);
      RerankDayReorders(f, plan[n - 1], env);
      SameCandidatesTrans(RerankDays(fetched, plan, env, n), f, fetched);
    }
  }

  // ---------------------------------------------------------------- the node

  /**
   * With distinct day numbers, `fetched_places` holds, for every slot of the
   * plan, the result of that slot's fallback chain (`[]` for a slot without a
   * query), reordered at most by the rerank.
   */
  lemma FetchedSlots(plan: seq<PlanDay>, search: PlacesSearch, base: Option<seq<string>>, env: FetchEnv, d: nat, i: nat)
    requires DistinctDays(plan)
    requires d < |plan| && i < |plan[d].slots|
    ensures var f := FetchedFor(plan, search, base, env); var key := RoadmapUtils.BuildSlotKey(plan[d].dayNumber, i);
      key in f && multiset(f[key]) == multiset(SlotValue(plan[d], base, i, search, env))
    ensures !env.rerankEnabled ==>
      FetchedFor(plan, search, base, env)[RoadmapUtils.BuildSlotKey(plan[d].dayNumber, i)] == SlotValue(plan[d], base, i, search, env)
  {
    var c := CollectDays(plan, base, |plan|);
    var searched := Resolve(c, search, env);
    DaysHit(plan, base, |plan|, d, i, search, env);
    if env.rerankEnabled {
      RerankDaysReorders(searched, plan, env, |plan|);
    }
  }

  /** `fetched_places` has no key other than the slot keys of the plan. */
  lemma FetchedOnlySlots(plan: seq<PlanDay>, search: PlacesSearch, base: Option<seq<string>>, env: FetchEnv, key: string)
    requires forall d :: 0 <= d < |plan| ==> NotKeyOf(plan[d], key)
    ensures key !in FetchedFor(plan, search, base, env)
  {
    var c := CollectDays(plan, base, |plan|);
    var searched := Resolve(c, search, env);
    MissAllFrom(plan, |plan|, |plan|, key);
    DaysMiss(plan, base, |plan|, search, env, key);
    if env.rerankEnabled {
      RerankDaysReorders(searched, plan, env, |plan|);
    }
  }
}
