/**
 * The cascade node of the chat graph (`app/graph/chat/nodes/cascade.py`):
 * after an edit it re-runs the visit-time policy on every day the diff keys
 * name, collects the policy's warnings behind the ones already in the state,
 * and checks the edited roadmap against the response schema.
 *
 * The schema check (`ChatRoadmap.model_validate`) is the `validate`
 * parameter; the policy configuration built from the settings and the
 * distance function are the `cfg` and `dist` parameters.
 */
module ChatCascade {
  import opened Wrappers
  import opened PyText
  import opened PyList
  import opened Itinerary
  import opened ModifyUtils
  import opened VisitTimePolicy
  import opened ChatSchema
  import opened ChatGraphState

  const MissingItineraryError: string := "cascade에는 modified_itinerary가 필요합니다."
  const InvalidPreferenceError: string := "current_itinerary.planning_preference가 유효하지 않습니다."
  const SchemaError: string := "수정된 로드맵이 스키마 검증에 실패했습니다."

  // ---------------------------------------------------------------- modified days

  /** The day a diff key names: the integer after `day` in the part before the first `_`. */
  function DayOfKey(key: string): Option<int>
  {
    var head := Split(key, '_')[0];
    if StartsWith(head, "day") then ParseInt(head[3..]) else None
  }

  /** The days some keys name, for a given reading of one key; a key that names no day is ignored. */
  function DaysNamed(dayOf: string -> Option<int>, keys: seq<string>): set<int>
    decreases |keys|
  {
    if |keys| == 0 then {}
    else
      var day := dayOf(keys[|keys| - 1]);
      if day.Some? then DaysNamed(dayOf, keys[..|keys| - 1]) + {day.value} else DaysNamed(dayOf, keys[..|keys| - 1])
  }

  /** A day is named exactly when some key names it. */
  lemma {:induction false} DaysNamedSpec(dayOf: string -> Option<int>, keys: seq<string>, d: int)
    ensures d in DaysNamed(dayOf, keys) <==> exists k :: 0 <= k < |keys| && dayOf(keys[k]) == Some(d)
    decreases |keys|
  {
    if |keys| > 0 {
      var pre := keys[..|keys| - 1];
      DaysNamedSpec(dayOf, pre, d);
      if exists k :: 0 <= k < |pre| && dayOf(pre[k]) == Some(d) {
        var k :| 0 <= k < |pre| && dayOf(pre[k]) == Some(d);
        assert keys[k] == pre[k];
      }
      if exists k :: 0 <= k < |keys| && dayOf(keys[k]) == Some(d) {
        var k :| 0 <= k < |keys| && dayOf(keys[k]) == Some(d);
        if k < |pre| {
          assert pre[k] == keys[k];
        }
      }
    }
  }

  /** The days the diff keys name. */
  function ModifiedDaysOf(keys: seq<string>): set<int>
  {
    DaysNamed(DayOfKey, keys)
  }

  /** A day is modified exactly when some diff key names it. */
  lemma ModifiedDaysOfSpec(keys: seq<string>, d: int)
    ensures d in ModifiedDaysOf(keys) <==> exists k :: 0 <= k < |keys| && DayOfKey(keys[k]) == Some(d)
  {
    DaysNamedSpec(DayOfKey, keys, d);
  }

  /** `_extract_modified_days`: the loop that adds each parsable day to a set. */
  method ExtractModifiedDays(keys: seq<string>) returns (days: set<int>)
    ensures days == ModifiedDaysOf(keys)
  {
    days := {};
    var i := 0;
    while i < |keys|
      invariant 0 <= i <= |keys|
      invariant days == ModifiedDaysOf(keys[..i])
    {
      var parts := Split(keys[i], '_');
      if StartsWith(parts[0], "day") {
        var day := ParseInt(parts[0][3..]);
        if day.Some? {
          days := days + {day.value};
        }
      }
      i := i + 1;
      assert keys[..i][..i - 1] == keys[..i - 1];
    }
    assert keys[..i] == keys;
  }

  /** The key an edit writes names its day. */
  lemma DiffKeyDay(d: int, m: int)
    ensures DayOfKey(BuildDiffKey(d, m)) == Some(d)
  {
    DiffKeyParts(d, m);
    var head := Split(BuildDiffKey(d, m), '_')[0];
    assert head == "day" + IntText(d);
    assert head[3..] == IntText(d);
    ParseIntText(d);
  }

  /** `_extract_modified_days([build_diff_key(d, m)]) == {d}`. */
  lemma ModifiedDaysOfDiffKey(d: int, m: int)
    ensures ModifiedDaysOf([BuildDiffKey(d, m)]) == {d}
  {
    var key := BuildDiffKey(d, m);
    DiffKeyDay(d, m);
    var day := DayOfKey(key);
    assert [key][..0] == [];
    assert DaysNamed(DayOfKey, [key]) == DaysNamed(DayOfKey, []) + {day.value};
  }

  /** A key that names no day adds nothing. */
  lemma ModifiedDaysIgnoresMalformed(keys: seq<string>, key: string)
    requires DayOfKey(key).None?
    ensures ModifiedDaysOf(keys + [key]) == ModifiedDaysOf(keys)
  {
    assert (keys + [key])[..|keys|] == keys;
  }

  // ---------------------------------------------------------------- output mode

  /** `_resolve_output_mode`: PLANNED gives `HH:MM`, any other valid preference section labels; None when the preference is not valid. */
  function ResolveOutputMode(preference: Option<PlanningPreference>): (r: Option<OutputMode>)
    ensures r.None? <==> preference.None?
    ensures r == Some(HHMM) <==> preference == Some(Planned)
    ensures r == Some(SectionEn) <==> preference.Some? && preference.value != Planned
  {
    match preference
    case None => None
    case Some(Planned) => Some(HHMM)
    case Some(_) => Some(SectionEn)
  }

  // ---------------------------------------------------------------- the day loop

  /** What the day loop works with besides the days. */
  datatype Run = Run(cfg: Config, dist: Distance, proposals: map<int, map<int, string>>, modified: set<int>, mode: OutputMode)

  /** Only days the diff keys name and that have places are recomputed. */
  predicate Recomputed(run: Run, d: Day) { d.dayNumber in run.modified && |d.places| > 0 }

  /** The policy inputs for a day: its proposals, or none. */
  function DayPlan(run: Run, d: Day): Plan
  {
    Plan(run.cfg, if d.dayNumber in run.proposals then run.proposals[d.dayNumber] else map[], run.dist)
  }

  /** A day after the loop. */
  function CascadedDay(run: Run, d: Day): (r: Day)
    ensures r.dayNumber == d.dayNumber && r.date == d.date && |r.places| == |d.places|
    ensures !Recomputed(run, d) ==> r == d
  {
    if Recomputed(run, d) then d.(places := PolicyPlaces(DayPlan(run, d), d.places, run.mode)) else d
  }

  /** The warnings a day contributes. */
  function DayWarningTexts(run: Run, d: Day): (r: seq<string>)
    ensures !Recomputed(run, d) ==> r == []
  {
    if Recomputed(run, d) then RenderAll(DayPrefix(Some(d.dayNumber)), PolicyWarnings(DayPlan(run, d), d.places)) else []
  }

  /** Every day after the loop, in itinerary order. */
  function CascadedDays(run: Run, days: seq<Day>): (r: seq<Day>)
    ensures |r| == |days| && forall i :: 0 <= i < |days| ==> r[i] == CascadedDay(run, days[i])
  {
    seq(|days|, i requires 0 <= i < |days| => CascadedDay(run, days[i]))
  }

  /** The warnings of the loop: each recomputed day's, in itinerary order. */
  function CascadeWarnings(run: Run, days: seq<Day>): seq<string>
    decreases |days|
  {
    if |days| == 0 then [] else CascadeWarnings(run, days[..|days| - 1]) + DayWarningTexts(run, days[|days| - 1])
  }

  lemma CascadeWarningsNext(run: Run, days: seq<Day>, i: nat)
    requires i < |days|
    ensures CascadeWarnings(run, days[..i + 1]) == CascadeWarnings(run, days[..i]) + DayWarningTexts(run, days[i])
  {
    assert days[..i + 1][..i] == days[..i];
  }

  /** The loop's invariants carry over one pass. */
  lemma CascadeStep(run: Run, days: seq<Day>, prior: seq<string>, out: seq<Day>, warnings: seq<string>, i: nat,
                    next: Day, dayWarnings: seq<string>)
    requires i < |days| && |out| == |days|
    requires forall k :: 0 <= k < i ==> out[k] == CascadedDay(run, days[k])
    requires forall k :: i <= k < |days| ==> out[k] == days[k]
    requires warnings == prior + CascadeWarnings(run, days[..i])
    requires next == CascadedDay(run, days[i]) && dayWarnings == DayWarningTexts(run, days[i])
    ensures forall k :: 0 <= k < i + 1 ==> out[i := next][k] == CascadedDay(run, days[k])
    ensures forall k :: i + 1 <= k < |days| ==> out[i := next][k] == days[k]
    ensures warnings + dayWarnings == prior + CascadeWarnings(run, days[..i + 1])
  {
    CascadeWarningsNext(run, days, i);
    AppendAssoc(prior, CascadeWarnings(run, days[..i]), dayWarnings);
  }

  /** One pass of the loop: the day recomputed by the policy when it is due, with its warnings. */
  method CascadeOneDay(run: Run, day: Day) returns (next: Day, dayWarnings: seq<string>)
    ensures next == CascadedDay(run, day) && dayWarnings == DayWarningTexts(run, day)
  {
    if day.dayNumber !in run.modified || |day.places| == 0 {
      return day, [];
    }
    var resolved;
    resolved, dayWarnings := ApplyVisitTimePolicy(day.places, Some(day.dayNumber), DayPlan(run, day), run.mode);
    next := day.(places := resolved);
  }

  /** The loop over the days: recompute, write the places back, extend the warnings. */
  method CascadeLoop(run: Run, days: seq<Day>, prior: seq<string>) returns (out: seq<Day>, warnings: seq<string>)
    ensures out == CascadedDays(run, days)
    ensures warnings == prior + CascadeWarnings(run, days)
  {
    out := days;
    warnings := prior;
    var i := 0;
    while i < |days|
      invariant 0 <= i <= |days| && |out| == |days|
      invariant forall k :: 0 <= k < i ==> out[k] == CascadedDay(run, days[k])
      invariant forall k :: i <= k < |days| ==> out[k] == days[k]
      invariant warnings == prior + CascadeWarnings(run, days[..i])
    {
      var next, dayWarnings := CascadeOneDay(run, days[i]);
      CascadeStep(run, days, prior, out, warnings, i, next, dayWarnings);
      out := out[i := next];
      warnings := warnings + dayWarnings;
      i := i + 1;
    }
    assert days[..i] == days;
  }

  // ---------------------------------------------------------------- the node

  /** What `cascade` returns for a state. */
  function CascadeNode(s: ChatState, cfg: Config, dist: Distance, validate: Roadmap -> bool): (r: ChatState)
    ensures r.diffKeys == s.diffKeys && r.intent == s.intent && r.currentItinerary == s.currentItinerary
    ensures s.modifiedItinerary.None? ==> HasError(r)
    ensures !HasError(r) ==> r.modifiedItinerary.Some? && r.status == s.status && r.error == s.error
  {
    if s.modifiedItinerary.None? then s.(error := Some(MissingItineraryError))
    else
      var itinerary := s.modifiedItinerary.value;
      var mode := ResolveOutputMode(itinerary.planningPreference);
      if mode.None? then s.(status := Some(Rejected), error := Some(InvalidPreferenceError))
      else
        var run := Run(cfg, dist, s.visitTimeProposals, ModifiedDaysOf(s.diffKeys), mode.value);
        var updated := itinerary.(days := CascadedDays(run, itinerary.days));
        var warnings := s.warnings + CascadeWarnings(run, itinerary.days);
        if !validate(updated) then
          s.(status := Some(Rejected), error := Some(SchemaError), warnings := warnings, modifiedItinerary := Some(updated))
        else s.(modifiedItinerary := Some(updated), warnings := warnings)
  }

  /**
   * `cascade`. The day loop writes into the modified itinerary itself, so
   * the state returned on a schema failure holds the recomputed days too.
   */
  method Cascade(s: ChatState, cfg: Config, dist: Distance, validate: Roadmap -> bool) returns (r: ChatState)
    ensures r == CascadeNode(s, cfg, dist, validate)
  {
    if s.modifiedItinerary.None? {
      return s.(error := Some(MissingItineraryError));
    }
    var itinerary := s.modifiedItinerary.value;
    var mode := ResolveOutputMode(itinerary.planningPreference);
    if mode.None? {
      return s.(status := Some(Rejected), error := Some(InvalidPreferenceError));
    }
    var modifiedDays := ExtractModifiedDays(s.diffKeys);
    var run := Run(cfg, dist, s.visitTimeProposals, modifiedDays, mode.value);
    var days, warnings := CascadeLoop(run, itinerary.days, s.warnings);
    itinerary := itinerary.(days := days);
    if !validate(itinerary) {
      return s.(status := Some(Rejected), error := Some(SchemaError), warnings := warnings, modifiedItinerary := Some(itinerary));
    }
    return s.(modifiedItinerary := Some(itinerary), warnings := warnings);
  }

  // ---------------------------------------------------------------- what the cascade guarantees

  /** The run a state with an itinerary of valid preference gets. */
  function RunOf(s: ChatState, cfg: Config, dist: Distance): Run
    requires s.modifiedItinerary.Some? && s.modifiedItinerary.value.planningPreference.Some?
  {
    Run(cfg, dist, s.visitTimeProposals, ModifiedDaysOf(s.diffKeys),
        ResolveOutputMode(s.modifiedItinerary.value.planningPreference).value)
  }

  /** Without an itinerary, or with an invalid preference, the cascade stops before touching any time. */
  lemma CascadeStops(s: ChatState, cfg: Config, dist: Distance, validate: Roadmap -> bool)
    ensures var r := CascadeNode(s, cfg, dist, validate);
      (s.modifiedItinerary.None? ==> r == s.(error := Some(MissingItineraryError)))
      && (s.modifiedItinerary.Some? && s.modifiedItinerary.value.planningPreference.None? ==>
            r.status == Some(Rejected) && r.error == Some(InvalidPreferenceError)
            && r.modifiedItinerary == s.modifiedItinerary && r.warnings == s.warnings)
  {
  }

  /**
   * With an itinerary of valid preference the cascade keeps every day it
   * does not recompute, recomputes the others with the policy, and appends
   * the policy's warnings behind the earlier ones; a schema failure is a
   * rejection that still carries the warnings.
   */
  lemma CascadeRecomputes(s: ChatState, cfg: Config, dist: Distance, validate: Roadmap -> bool, i: nat)
    requires s.modifiedItinerary.Some? && s.modifiedItinerary.value.planningPreference.Some?
    requires i < |s.modifiedItinerary.value.days|
    ensures var r := CascadeNode(s, cfg, dist, validate); var before := s.modifiedItinerary.value;
      r.modifiedItinerary.Some? && |r.modifiedItinerary.value.days| == |before.days|
      && r.modifiedItinerary.value.planningPreference == before.planningPreference
    ensures var r := CascadeNode(s, cfg, dist, validate); var d := s.modifiedItinerary.value.days[i];
      !Recomputed(RunOf(s, cfg, dist), d) ==> r.modifiedItinerary.value.days[i] == d
    ensures var r := CascadeNode(s, cfg, dist, validate); var run := RunOf(s, cfg, dist); var d := s.modifiedItinerary.value.days[i];
      Recomputed(run, d) ==> r.modifiedItinerary.value.days[i] == d.(places := PolicyPlaces(DayPlan(run, d), d.places, run.mode))
    ensures var r := CascadeNode(s, cfg, dist, validate);
      r.warnings == s.warnings + CascadeWarnings(RunOf(s, cfg, dist), s.modifiedItinerary.value.days)
    ensures var r := CascadeNode(s, cfg, dist, validate);
      (validate(r.modifiedItinerary.value) ==> r.error == s.error && r.status == s.status)
      && (!validate(r.modifiedItinerary.value) ==> r.status == Some(Rejected) && r.error == Some(SchemaError))
  {
  }

  /** The warnings of the loop are the recomputed days' warnings concatenated in day order. */
  lemma {:induction false} CascadeWarningsAppend(run: Run, a: seq<Day>, b: seq<Day>)
    ensures CascadeWarnings(run, a + b) == CascadeWarnings(run, a) + CascadeWarnings(run, b)
    decreases |b|
  {
    if |b| == 0 {
      assert a + b == a;
    } else {
      var b' := b[..|b| - 1];
      var last := DayWarningTexts(run, b[|b| - 1]);
      assert (a + b)[..|a + b| - 1] == a + b';
      assert (a + b)[|a + b| - 1] == b[|b| - 1];
      assert CascadeWarnings(run, a + b) == CascadeWarnings(run, a + b') + last;
      CascadeWarningsAppend(run, a, b');
      assert CascadeWarnings(run, b) == CascadeWarnings(run, b') + last;
      PyList.AppendAssoc(CascadeWarnings(run, a), CascadeWarnings(run, b'), last);
    }
  }

  /** A single diff key recomputes exactly the day it names. */
  lemma CascadeOneKey(s: ChatState, cfg: Config, dist: Distance, d: int, m: int)
    requires s.diffKeys == [BuildDiffKey(d, m)]
    requires s.modifiedItinerary.Some? && s.modifiedItinerary.value.planningPreference.Some?
    ensures forall day :: Recomputed(RunOf(s, cfg, dist), day) <==> day.dayNumber == d && |day.places| > 0
  {
    ModifiedDaysOfDiffKey(d, m);
  }
}
