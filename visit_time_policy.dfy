/**
 * The visit-time policy (`app/core/visit_time_policy.py`): parsing and
 * formatting of clock times, the configuration clamps, the transit estimate
 * and the left-to-right recurrence that stamps a day's visits with times and
 * collects warnings.
 */
module VisitTimePolicy {
  import opened Wrappers
  import opened PyText
  import opened Itinerary
  import opened ModifyUtils

  const DefaultStart: string := "09:00"
  const DefaultStayMinutes: int := 90
  const DefaultTransitFactor: real := 15.0
  const DefaultTransitBaseMinutes: int := 10
  const DefaultLateHour: int := 23
  const DefaultWalkWarningMinutes: int := 30
  const MinuteStep: int := 30
  /** Minutes in a day: an assignment at or past this overflows. */
  const DayMinutes: int := 1440
  /** The sentinel written into every visit from the first overflowing one on. */
  const OverflowText: string := "일정 초과"

  /** `_SECTION_TIME_MAP`. */
  const SectionTimeMap: map<string, string> := map[
    "MORNING" := "09:00", "LUNCH" := "12:00", "AFTERNOON" := "14:00",
    "DINNER" := "18:00", "EVENING" := "20:00", "NIGHT" := "22:00"]

  datatype OutputMode = HHMM | SectionEn


  /** `parse_time_to_hhmm_minutes`: None for missing, blank, unparsable or out-of-range text. */
  function ParseTimeToMinutes(value: Option<string>): (r: Option<int>)
    ensures r.Some? ==> 0 <= r.value < DayMinutes
    ensures value.None? || IsBlank(value.value) ==> r.None?
  {
    if value.None? || |value.value| == 0 then None
    else
      var text := Upper(Strip(value.value));
      if |text| == 0 then None
      else ParseClock(CleanTime(text), Contains(text, "PM"), Contains(text, "AM"))
  }

  /** The text with every `AM` and `PM` removed, stripped, and trailing colons dropped. */
  function CleanTime(text: string): string
  {
    RStripChar(Strip(ReplaceAll(ReplaceAll(text, "AM", ""), "PM", "")), ':')
  }

  /** Hour and optional minute of a cleaned `H:M` text, with the AM/PM rule and the range check. */
  function ParseClock(cleaned: string, isPm: bool, isAm: bool): (r: Option<int>)
    ensures r.Some? ==> 0 <= r.value < DayMinutes
  {
    ClockFromParts(Split(cleaned, ':'), isPm, isAm)
  }

  /** The clock reading of the colon-separated pieces: hour, then minute (0 when absent). */
  function ClockFromParts(parts: seq<string>, isPm: bool, isAm: bool): (r: Option<int>)
    requires |parts| >= 1
    ensures r.Some? ==> 0 <= r.value < DayMinutes
  {
    var hour := ParseInt(parts[0]);
    var minute := if |parts| > 1 then ParseInt(parts[1]) else Some(0);
    if hour.None? || minute.None? then None
    else
      var h := AdjustHour(hour.value, isPm, isAm);
      if 0 <= h < 24 && 0 <= minute.value < 60 then Some(h * 60 + minute.value) else None
  }

  /** The AM/PM rule: PM adds twelve hours except to 12, and 12 AM is hour 0. */
  function AdjustHour(hour: int, isPm: bool, isAm: bool): (h: int)
    ensures isPm && hour != 12 ==> h == hour + 12
    ensures isAm && !isPm && hour == 12 ==> h == 0
    ensures !isPm && !isAm ==> h == hour
  {
    if isPm && hour != 12 then hour + 12 else if isAm && hour == 12 then 0 else hour
  }

  /** `format_minutes_to_hhmm`. */
  function FormatHHMM(total: int): (r: string)
    ensures |r| == 5 && r[2] == ':'
  {
    ClockText(ClockHour(total), ClockMinute(total))
  }

  /** `f"{h:02d}:{m:02d}"` for an hour and a minute below 100. */
  function ClockText(h: nat, m: nat): (r: string)
    requires h < 100 && m < 100
  {
    [DigitChar(h / 10), DigitChar(h % 10), ':', DigitChar(m / 10), DigitChar(m % 10)]
  }

  function ClockMinute(total: int): (m: int)
    ensures 0 <= m < 60
  {
    Max(0, total) % 60
  }

  /** The hour `format_minutes_to_section_en` classifies. */
  function ClockHour(total: int): (h: int)
    ensures 0 <= h < 24
  {
    (Max(0, total) / 60) % 24
  }

  /** `format_minutes_to_section_en`. */
  function FormatSectionEn(total: int): string
  {
    var hour := ClockHour(total);
    if hour < 11 then "MORNING"
    else if hour < 14 then "LUNCH"
    else if hour < 18 then "AFTERNOON"
    else if hour < 20 then "DINNER"
    else if hour < 22 then "EVENING"
    else "NIGHT"
  }

  /** The position of a section label in the day, MORNING first. */
  function SectionRank(name: string): int
  {
    if name == "MORNING" then 0 else if name == "LUNCH" then 1 else if name == "AFTERNOON" then 2
    else if name == "DINNER" then 3 else if name == "EVENING" then 4 else if name == "NIGHT" then 5 else -1
  }

  /** Later times of one day never get an earlier section, and every label is a section key. */
  lemma {:induction false} SectionEnMonotone(t1: int, t2: int)
    requires 0 <= t1 <= t2 < DayMinutes
    ensures 0 <= SectionRank(FormatSectionEn(t1)) <= SectionRank(FormatSectionEn(t2))
    ensures FormatSectionEn(t1) in SectionTimeMap
  {
    assert ClockHour(t1) == t1 / 60 && ClockHour(t2) == t2 / 60;
  }

  /** `_parse_start_minutes`: the configured start, or 09:00. */
  function ParseStartMinutes(value: string): (r: int)
    ensures 0 <= r < DayMinutes
    ensures ParseTimeToMinutes(Some(value)).Some? ==> r == ParseTimeToMinutes(Some(value)).value
  {
    var parsed := ParseTimeToMinutes(Some(value));
    if parsed.Some? then parsed.value
    else
      var fallback := ParseTimeToMinutes(Some(DefaultStart));
      if fallback.Some? then fallback.value else 540
  }

  /** `_normalize_output_mode` for a textual mode: unknown text falls back to HHMM. */
  function NormalizeOutputMode(text: string): (m: OutputMode)
    ensures m == SectionEn <==> Upper(Strip(text)) == "SECTION_EN"
  {
    if Upper(Strip(text)) == "SECTION_EN" then SectionEn else HHMM
  }

  /** The `VISIT_TIME_*` settings as read from the environment. */
  datatype Settings = Settings(
    visitTimeStart: string,
    stayMinutes: int,
    transitFactor: real,
    transitBaseMinutes: int,
    lateHour: int,
    walkWarningMinutes: int)

  datatype Config = Config(
    startMinutes: int,
    stayMinutes: int,
    transitFactor: real,
    transitBaseMinutes: int,
    lateHour: int,
    walkWarningMinutes: int)

  /** What `build_visit_time_policy_config` guarantees of every configuration it builds. */
  predicate ValidConfig(c: Config)
  {
    0 <= c.startMinutes < DayMinutes && c.stayMinutes >= 1 && c.transitFactor >= 0.0
    && c.transitBaseMinutes >= 0 && 0 <= c.lateHour <= 23 && c.walkWarningMinutes >= 0
  }

  /** `build_visit_time_policy_config`: every setting is clamped into its legal range. */
  function BuildConfig(s: Settings): (c: Config)
    ensures ValidConfig(c)
    ensures s.stayMinutes >= 1 ==> c.stayMinutes == s.stayMinutes
    ensures 0 <= s.lateHour <= 23 ==> c.lateHour == s.lateHour
    ensures s.walkWarningMinutes >= 0 ==> c.walkWarningMinutes == s.walkWarningMinutes
    ensures s.transitBaseMinutes >= 0 ==> c.transitBaseMinutes == s.transitBaseMinutes
    ensures s.transitFactor >= 0.0 ==> c.transitFactor == s.transitFactor
  {
    Config(
      ParseStartMinutes(s.visitTimeStart),
      Max(1, s.stayMinutes),
      if s.transitFactor >= 0.0 then s.transitFactor else 0.0,
      Max(0, s.transitBaseMinutes),
      Min(23, Max(0, s.lateHour)),
      Max(0, s.walkWarningMinutes))
  }

  /** `calc_transit_minutes`: distance times factor plus base, truncated by `int()`. */
  function CalcTransitMinutes(dist: Distance, lat1: real, lon1: real, lat2: real, lon2: real,
                              factor: real, base: int): int
  {
    Trunc(dist(lat1, lon1, lat2, lon2) * factor + base as real)
  }

  /** Identical coordinates cost exactly the base; otherwise at least the base. */
  lemma {:induction false} TransitBounds(dist: Distance, lat1: real, lon1: real, lat2: real, lon2: real, factor: real, base: int)
    requires IsHaversine(dist) && factor >= 0.0 && base >= 0
    ensures CalcTransitMinutes(dist, lat1, lon1, lat1, lon1, factor, base) == base
    ensures CalcTransitMinutes(dist, lat1, lon1, lat2, lon2, factor, base) >= base
  {
    assert dist(lat1, lon1, lat1, lon1) == 0.0;
    assert dist(lat1, lon1, lat2, lon2) >= 0.0;
    assert dist(lat1, lon1, lat2, lon2) * factor >= 0.0;
  }

  /** `_section_minutes`: the clock time a section label stands for. */
  function SectionMinutes(value: string): (r: Option<int>)
    ensures r.Some? <==> Upper(Strip(value)) in SectionTimeMap
  {
    var key := Upper(Strip(value));
    if key in SectionTimeMap then
      SectionTimesParse(key);
      ParseTimeToMinutes(Some(SectionTimeMap[key]))
    else None
  }

  /** The six constants of the section map all parse. */
  lemma {:induction false} SectionTimesParse(key: string)
    requires key in SectionTimeMap
    ensures ParseTimeToMinutes(Some(SectionTimeMap[key])).Some?
  {
    var text := SectionTimeMap[key];
    var hh := text[..2];
    assert text == hh + [':'] + "00";
    assert AllDigits(hh) && AllDigits("00");
    TwoDigitBody(hh);
    TwoDigitBody("00");
    ParseDigitsColonDigits(hh, "00", text);
  }

  /** The text the anchor reads from `section`, falling back to `section_hint`. */
  function SectionHintText(p: Place): string
  {
    if p.section.Some? && |p.section.value| > 0 then p.section.value else p.sectionHint.GetOr([])
  }

  /** `_resolve_anchor_minutes`: proposal, then parsed visit_time, then a section label in visit_time, then section/section_hint. */
  function ResolveAnchorMinutes(p: Place, llmMinutes: Option<int>): (r: Option<int>)
    ensures llmMinutes.None? && r.Some? ==> 0 <= r.value < DayMinutes
  {
    if llmMinutes.Some? then llmMinutes
    else
      var visitTime := p.visitTime.GetOr([]);
      var parsed := ParseTimeToMinutes(Some(visitTime));
      if parsed.Some? then parsed
      else
        var fromVisitTime := SectionMinutes(visitTime);
        if fromVisitTime.Some? then fromVisitTime
        else SectionMinutes(SectionHintText(p))
  }

  /** The anchor priority: an LLM proposal wins, then a parsable `visit_time`, whatever the section says. */
  lemma {:induction false} AnchorPriority(p: Place, llmMinutes: Option<int>)
    ensures llmMinutes.Some? ==> ResolveAnchorMinutes(p, llmMinutes) == llmMinutes
    ensures llmMinutes.None? && ParseTimeToMinutes(Some(p.visitTime.GetOr([]))).Some? ==>
      ResolveAnchorMinutes(p, llmMinutes) == ParseTimeToMinutes(Some(p.visitTime.GetOr([])))
    ensures (llmMinutes.None? && ParseTimeToMinutes(Some(p.visitTime.GetOr([]))).None?
      && SectionMinutes(p.visitTime.GetOr([])).None?) ==>
      ResolveAnchorMinutes(p, llmMinutes) == SectionMinutes(SectionHintText(p))
  {
  }

  function FormatVisitTime(total: int, mode: OutputMode): string
  {
    if mode == SectionEn then FormatSectionEn(total) else FormatHHMM(total)
  }

  /**
   * `_ceil_minutes_to_step` with its default step of 30 minutes (no caller passes
   * another): the least multiple of 30 at or above max(0, t).
   */
  function CeilToStep(total: int): (r: int)
    ensures var n := Max(0, total); r % MinuteStep == 0 && n <= r < n + MinuteStep
  {
    var normalized := Max(0, total);
    var remainder := normalized % MinuteStep;
    if remainder == 0 then normalized else normalized + (MinuteStep - remainder)
  }

  lemma {:induction false} CeilIdempotent(total: int)
    ensures CeilToStep(CeilToStep(total)) == CeilToStep(total)
  {
  }

  // ---- Formatting round trip ----

  lemma {:induction false} NoCharNoContains(s: string, p: string)
    requires |p| > 0 && p[0] !in s
    ensures !Contains(s, p)
    decreases |s|
  {
    if |s| > 0 { NoCharNoContains(s[1..], p); }
  }

  lemma {:induction false} UpperOfClean(s: string)
    requires forall i :: 0 <= i < |s| ==> !('a' <= s[i] <= 'z')
    ensures Upper(s) == s
  {
  }

  predicate AllDigits(s: string) { forall i :: 0 <= i < |s| ==> IsDigit(s[i]) }

  lemma {:induction false} ParseIntDigits(a: string)
    requires |a| > 0 && AllDigits(a)
    ensures ParseInt(a).Some? && ParseInt(a).value == BodyValue(a)
  {
    DigitsNoUnderscore(a);
    assert DigitBody(a);
    StripNoSpace(a);
  }

  predicate ClockChars(s: string) { forall i :: 0 <= i < |s| ==> IsDigit(s[i]) || s[i] == ':' }

  lemma {:induction false} CleanClockText(text: string)
    requires |text| > 0 && IsDigit(text[0]) && IsDigit(text[|text| - 1]) && ClockChars(text)
    ensures Upper(Strip(text)) == text && CleanTime(text) == text
    ensures !Contains(text, "PM") && !Contains(text, "AM")
  {
    StripNoSpace(text);
    UpperOfClean(text);
    NoCharNoContains(text, "PM");
    NoCharNoContains(text, "AM");
    ReplaceAllAbsent(text, "AM", "");
    ReplaceAllAbsent(text, "PM", "");
  }

  lemma {:induction false} ClockFromDigitParts(a: string, b: string)
    requires |a| > 0 && |b| > 0 && AllDigits(a) && AllDigits(b)
    requires BodyValue(a) < 24 && BodyValue(b) < 60
    ensures var r := ClockFromParts([a, b], false, false); r.Some? && r.value == BodyValue(a) * 60 + BodyValue(b)
  {
    ParseIntDigits(a);
    ParseIntDigits(b);
  }

  lemma {:induction false} ParseClockDigits(a: string, b: string)
    requires |a| > 0 && |b| > 0 && AllDigits(a) && AllDigits(b)
    requires BodyValue(a) < 24 && BodyValue(b) < 60
    ensures var r := ParseClock(a + [':'] + b, false, false); r.Some? && r.value == BodyValue(a) * 60 + BodyValue(b)
  {
    assert ':' !in a && ':' !in b;
    SplitJoined(a, b, ':');
    ClockFromDigitParts(a, b);
  }

  /** How `parse_time_to_hhmm_minutes` reads `digits:digits` with no AM/PM marker. */
  lemma {:induction false} ParseDigitsColonDigits(a: string, b: string, text: string)
    requires |a| > 0 && |b| > 0 && AllDigits(a) && AllDigits(b) && text == a + [':'] + b
    requires BodyValue(a) < 24 && BodyValue(b) < 60
    ensures var r := ParseTimeToMinutes(Some(text)); r.Some? && r.value == BodyValue(a) * 60 + BodyValue(b)
  {
    assert ClockChars(text);
    CleanClockText(text);
    ParseClockDigits(a, b);
  }

  lemma {:induction false} ClockArithmetic(total: int)
    ensures ClockHour(total) * 60 + ClockMinute(total) == Max(0, total) % DayMinutes
  {
  }

  /** The number a pair of decimal digits spells. */
  function TwoDigits(hi: char, lo: char): nat
    requires IsDigit(hi) && IsDigit(lo)
  {
    DigitValue(hi) * 10 + DigitValue(lo)
  }

  /** A `HH:MM` text: two digits, a colon, two digits. */
  predicate ClockShape(t: string)
  {
    |t| == 5 && IsDigit(t[0]) && IsDigit(t[1]) && t[2] == ':' && IsDigit(t[3]) && IsDigit(t[4])
  }

  lemma {:induction false} TwoDigitBody(a: string)
    requires |a| == 2 && IsDigit(a[0]) && IsDigit(a[1])
    ensures AllDigits(a) && BodyValue(a) == TwoDigits(a[0], a[1])
  {
    var a1 := a[..1];
    assert a1[..0] == [] && a1[0] == a[0];
    assert BodyValue(a1) == DigitValue(a[0]);
  }

  /** `format_minutes_to_hhmm` writes the clock hour and minute as two digits each. */
  lemma {:induction false} FormatShape(total: int)
    ensures ClockShape(FormatHHMM(total))
    ensures TwoDigits(FormatHHMM(total)[0], FormatHHMM(total)[1]) == ClockHour(total)
    ensures TwoDigits(FormatHHMM(total)[3], FormatHHMM(total)[4]) == ClockMinute(total)
  {
  }

  /** The two digits are what `f"{n:02d}"` writes for the hour and the minute. */
  lemma {:induction false} FormatIsPadded(total: int)
    ensures FormatHHMM(total) == Pad2(ClockHour(total)) + ":" + Pad2(ClockMinute(total))
  {
    var h, m := ClockHour(total), ClockMinute(total);
    assert Pad2(h) == [DigitChar(h / 10), DigitChar(h % 10)] by {
      if h >= 10 { assert NatText(h / 10) == [DigitChar(h / 10)]; }
    }
    assert Pad2(m) == [DigitChar(m / 10), DigitChar(m % 10)] by {
      if m >= 10 { assert NatText(m / 10) == [DigitChar(m / 10)]; }
    }
  }

  /** The two-digit clock text parses back to its hour and minute. */
  lemma {:induction false} ClockTextParses(h: nat, m: nat)
    requires h < 24 && m < 60
    ensures var r := ParseTimeToMinutes(Some(ClockText(h, m))); r.Some? && r.value == h * 60 + m
  {
    var a, b := [DigitChar(h / 10), DigitChar(h % 10)], [DigitChar(m / 10), DigitChar(m % 10)];
    TwoDigitBody(a);
    TwoDigitBody(b);
    ParseDigitsColonDigits(a, b, ClockText(h, m));
  }

  /** Parsing what `format_minutes_to_hhmm` wrote gives back the minute of the day. */
  lemma {:induction false} FormatParses(total: int)
    ensures var r := ParseTimeToMinutes(Some(FormatHHMM(total))); r.Some? && r.value == Max(0, total) % DayMinutes
  {
    ClockArithmetic(total);
    ClockTextParses(ClockHour(total), ClockMinute(total));
  }

  // The recurrence of `apply_visit_time_policy`, as functions of the input day.

  /** What one run of the policy works with besides the places: the clamped configuration, the proposals, the distance. */
  datatype Plan = Plan(cfg: Config, proposals: map<int, string>, dist: Distance)

  /** The key the proposals are looked up by: `int(visit_sequence)`, else the 1-based position. */
  function SequenceOf(p: Place, index: nat): int
  {
    match p.visitSequence
    case Some(s) => s
    case None => index + 1
  }

  /** The proposal for a sequence number, parsed; a missing or empty proposal gives none. */
  function ProposalMinutes(proposals: map<int, string>, sequence: int): Option<int>
  {
    if sequence in proposals && |proposals[sequence]| > 0 then ParseTimeToMinutes(Some(proposals[sequence])) else None
  }

  /** The transit estimate between two consecutive places; none unless all four coordinates are present. */
  function TransitBetween(plan: Plan, a: Place, b: Place): Option<int>
  {
    if a.latitude.Some? && a.longitude.Some? && b.latitude.Some? && b.longitude.Some? then
      Some(CalcTransitMinutes(plan.dist, a.latitude.value, a.longitude.value, b.latitude.value,
        b.longitude.value, plan.cfg.transitFactor, plan.cfg.transitBaseMinutes))
    else None
  }

  /** The anchor of visit `k`: its proposal, else what the place itself says. */
  function AnchorAt(plan: Plan, places: seq<Place>, k: nat): Option<int>
    requires k < |places|
  {
    ResolveAnchorMinutes(places[k], ProposalMinutes(plan.proposals, SequenceOf(places[k], k)))
  }

  /**
   * The per-visit inputs of the recurrence: the transit into each visit (none for the
   * first) and each visit's anchor.
   */
  datatype Legs = Legs(transits: seq<Option<int>>, anchors: seq<Option<int>>)

  predicate WellFormed(legs: Legs)
  {
    |legs.transits| == |legs.anchors|
  }

  /** The transit into visit `k` from the visit before it. */
  function TransitInto(plan: Plan, places: seq<Place>, k: nat): Option<int>
    requires 0 < k < |places|
  {
    TransitBetween(plan, places[k - 1], places[k])
  }

  /** `legs` are the transits and anchors of `places` under `plan`. */
  predicate LegsMatch(plan: Plan, places: seq<Place>, legs: Legs)
  {
    && WellFormed(legs) && |legs.anchors| == |places|
    && (|places| > 0 ==> legs.transits[0].None?)
    && (forall k {:trigger AnchorAt(plan, places, k)} :: 0 <= k < |places| ==> legs.anchors[k] == AnchorAt(plan, places, k))
    && (forall k {:trigger TransitInto(plan, places, k)} :: 0 < k < |places| ==> legs.transits[k] == TransitInto(plan, places, k))
  }

  /** The legs of a day. */
  function LegsOf(plan: Plan, places: seq<Place>): (legs: Legs)
    ensures LegsMatch(plan, places, legs)
  {
    Legs(
      seq(|places|, k requires 0 <= k < |places| => if k == 0 then None else TransitInto(plan, places, k)),
      seq(|places|, k requires 0 <= k < |places| => AnchorAt(plan, places, k)))
  }

  /** The base of visit `k`: the start for the first visit, else previous time + stay + transit (0 without coordinates). */
  function BaseAt(cfg: Config, legs: Legs, k: nat): int
    requires WellFormed(legs) && k < |legs.anchors|
    decreases k, 0
  {
    if k == 0 then cfg.startMinutes
    else AssignedAt(cfg, legs, k - 1) + cfg.stayMinutes + legs.transits[k].GetOr(0)
  }

  /** The time the recurrence assigns to visit `k`: the base, raised to the anchor, rounded up to 30 minutes. */
  function AssignedAt(cfg: Config, legs: Legs, k: nat): int
    requires WellFormed(legs) && k < |legs.anchors|
    decreases k, 1
  {
    var base := BaseAt(cfg, legs, k);
    var anchor := legs.anchors[k];
    CeilToStep(if anchor.Some? then Max(base, anchor.value) else base)
  }

  /** The first visit at or after `k` whose time reaches midnight, or the number of visits. */
  function StopFrom(cfg: Config, legs: Legs, k: nat): (r: nat)
    requires WellFormed(legs) && k <= |legs.anchors|
    ensures k <= r <= |legs.anchors|
    decreases |legs.anchors| - k
  {
    if k == |legs.anchors| then k
    else if AssignedAt(cfg, legs, k) >= DayMinutes then k
    else StopFrom(cfg, legs, k + 1)
  }

  /** A warning of the policy, before it is rendered as text. */
  datatype Warning =
    | LongTransit(from: string, to: string, minutes: int)
    | PastMidnight
    | LateVisit(name: string, hour: int)

  /** The long-transit warning into visit `k`, if its transit exceeds the walking threshold. */
  function WalkWarnings(cfg: Config, legs: Legs, names: seq<string>, k: nat): seq<Warning>
    requires WellFormed(legs) && |names| == |legs.anchors| && k < |names|
  {
    var transit := legs.transits[k];
    if k > 0 && transit.Some? && transit.value > cfg.walkWarningMinutes
    then [LongTransit(names[k - 1], names[k], transit.value)] else []
  }

  /** The warning a visit's time gives: midnight reached, or a late hour. */
  function TimeWarnings(cfg: Config, name: string, time: int): seq<Warning>
  {
    if time >= DayMinutes then [PastMidnight]
    else if time / 60 >= cfg.lateHour then [LateVisit(name, time / 60)]
    else []
  }

  /** The warnings visit `k` adds: a long transit into it, then midnight or a late hour. */
  function StepWarnings(cfg: Config, legs: Legs, names: seq<string>, k: nat): seq<Warning>
    requires WellFormed(legs) && |names| == |legs.anchors| && k < |names|
  {
    WalkWarnings(cfg, legs, names, k) + TimeWarnings(cfg, names[k], AssignedAt(cfg, legs, k))
  }

  /** The warnings of the first `n` visits, in order. */
  function WarningsUpTo(cfg: Config, legs: Legs, names: seq<string>, n: nat): seq<Warning>
    requires WellFormed(legs) && |names| == |legs.anchors| && n <= |names|
  {
    if n == 0 then [] else WarningsUpTo(cfg, legs, names, n - 1) + StepWarnings(cfg, legs, names, n - 1)
  }

  lemma WarningsUpToNext(cfg: Config, legs: Legs, names: seq<string>, n: nat)
    requires WellFormed(legs) && |names| == |legs.anchors| && n < |names|
    ensures WarningsUpTo(cfg, legs, names, n + 1) == WarningsUpTo(cfg, legs, names, n) + StepWarnings(cfg, legs, names, n)
  {
  }

  function Names(places: seq<Place>): (r: seq<string>)
    ensures |r| == |places| && forall k :: 0 <= k < |places| ==> r[k] == places[k].placeName
  {
    seq(|places|, k requires 0 <= k < |places| => places[k].placeName)
  }

  /** A place with `visit_time` set and the `section` and `section_hint` keys popped. */
  function Stamped(p: Place, text: string): Place
  {
    p.(visitTime := Some(text), section := None, sectionHint := None)
  }

  /** The day after a run over given legs: formatted times before the stop, the overflow sentinel from it on. */
  function DayPlaces(cfg: Config, legs: Legs, places: seq<Place>, mode: OutputMode): (r: seq<Place>)
    requires WellFormed(legs) && |legs.anchors| == |places|
    ensures |r| == |places|
  {
    var s := StopFrom(cfg, legs, 0);
    seq(|places|, k requires 0 <= k < |places| =>
      Stamped(places[k], if k < s then FormatVisitTime(AssignedAt(cfg, legs, k), mode) else OverflowText))
  }

  /** The warnings of a run over given legs: those of the visits up to and including the overflowing one. */
  function DayWarnings(cfg: Config, legs: Legs, names: seq<string>): seq<Warning>
    requires WellFormed(legs) && |names| == |legs.anchors|
  {
    var s := StopFrom(cfg, legs, 0);
    WarningsUpTo(cfg, legs, names, if s < |names| then s + 1 else s)
  }

  /** Where a run stops: the first overflowing visit, or the end of the day. */
  function Stop(plan: Plan, places: seq<Place>): (r: nat)
    ensures r <= |places|
  {
    StopFrom(plan.cfg, LegsOf(plan, places), 0)
  }

  /** The time the policy assigns to visit `k` of a day. */
  function TimeOf(plan: Plan, places: seq<Place>, k: nat): int
    requires k < |places|
  {
    AssignedAt(plan.cfg, LegsOf(plan, places), k)
  }

  /** The day after `apply_visit_time_policy`. */
  function PolicyPlaces(plan: Plan, places: seq<Place>, mode: OutputMode): (r: seq<Place>)
    ensures |r| == |places|
  {
    DayPlaces(plan.cfg, LegsOf(plan, places), places, mode)
  }

  /** The warnings of `apply_visit_time_policy`, in the order it appends them. */
  function PolicyWarnings(plan: Plan, places: seq<Place>): seq<Warning>
  {
    DayWarnings(plan.cfg, LegsOf(plan, places), Names(places))
  }

  /** `f"{day_number}일차"`, or `해당 일차` without a day number. */
  function DayPrefix(dayNumber: Option<int>): string
  {
    match dayNumber
    case None => "해당 일차"
    case Some(n) => IntText(n) + "일차"
  }

  /** The Korean text of a warning. */
  function RenderWarning(prefix: string, w: Warning): string
  {
    match w
    case LongTransit(a, b, t) =>
      prefix + " " + a + " → " + b + " 이동 시간이 약 " + IntText(t) + "분 소요됩니다. 이동 수단을 변경하시겠어요?"
    case PastMidnight => prefix + " 일정이 자정을 초과합니다."
    case LateVisit(name, h) => prefix + " " + name + " 방문 시각이 " + IntText(h) + "시입니다."
  }

  function RenderAll(prefix: string, ws: seq<Warning>): (r: seq<string>)
    ensures |r| == |ws| && forall i :: 0 <= i < |ws| ==> r[i] == RenderWarning(prefix, ws[i])
  {
    seq(|ws|, i requires 0 <= i < |ws| => RenderWarning(prefix, ws[i]))
  }

  /** A stop index is characterised by the visits before it fitting the day and the one at it not. */
  lemma {:induction false} StopFromIs(cfg: Config, legs: Legs, k: nat, s: nat)
    requires WellFormed(legs) && k <= s <= |legs.anchors|
    requires forall j :: k <= j < s ==> AssignedAt(cfg, legs, j) < DayMinutes
    requires s < |legs.anchors| ==> AssignedAt(cfg, legs, s) >= DayMinutes
    ensures StopFrom(cfg, legs, k) == s
    decreases s - k
  {
    if k < s {
      StopFromIs(cfg, legs, k + 1, s);
    }
  }

  /**
   * One step of the walk: the time of visit `i` from the time of the visit before it,
   * with the warnings the step appends.
   */
  method NextTime(plan: Plan, places: seq<Place>, ghost legs: Legs, i: nat, prev: int) returns (time: int, step: seq<Warning>)
    requires LegsMatch(plan, places, legs) && i < |places|
    requires i > 0 ==> prev == AssignedAt(plan.cfg, legs, i - 1)
    ensures time == AssignedAt(plan.cfg, legs, i)
    ensures step == StepWarnings(plan.cfg, legs, Names(places), i)
  {
    var base := plan.cfg.startMinutes;
    var walk := [];
    if i > 0 {
      var transit := 0;
      var estimate := TransitBetween(plan, places[i - 1], places[i]);
      assert estimate == TransitInto(plan, places, i) == legs.transits[i];
      if estimate.Some? {
        transit := estimate.value;
        if transit > plan.cfg.walkWarningMinutes {
          walk := [LongTransit(places[i - 1].placeName, places[i].placeName, transit)];
        }
      }
      base := prev + plan.cfg.stayMinutes + transit;
      assert transit == legs.transits[i].GetOr(0);
    }
    assert base == BaseAt(plan.cfg, legs, i);
    var anchor := AnchorAt(plan, places, i);
    assert anchor == legs.anchors[i];
    time := CeilToStep(if anchor.Some? then Max(base, anchor.value) else base);
    step := walk + TimeWarnings(plan.cfg, places[i].placeName, time);
  }

  /** The overflow branch: every visit from `i` on gets the sentinel instead of a time. */
  method StampOverflow(out: seq<Place>, i: nat) returns (r: seq<Place>)
    requires i <= |out|
    ensures |r| == |out|
    ensures forall k :: 0 <= k < i ==> r[k] == out[k]
    ensures forall k :: i <= k < |out| ==> r[k] == Stamped(out[k], OverflowText)
  {
    r := out;
    var j := i;
    while j < |out|
      invariant i <= j <= |out| && |r| == |out|
      invariant forall k :: 0 <= k < i ==> r[k] == out[k]
      invariant forall k :: i <= k < j ==> r[k] == Stamped(out[k], OverflowText)
      invariant forall k :: j <= k < |out| ==> r[k] == out[k]
    {
      r := r[j := Stamped(r[j], OverflowText)];
      j := j + 1;
    }
  }

  /** A day stamped visit by visit as the recurrence says is the `DayPlaces` of its legs. */
  lemma DayPlacesPointwise(cfg: Config, legs: Legs, places: seq<Place>, mode: OutputMode, out: seq<Place>)
    requires WellFormed(legs) && |legs.anchors| == |places|
    requires DayStamped(cfg, legs, places, mode, out)
    ensures out == DayPlaces(cfg, legs, places, mode)
  {
  }

  /** Visit by visit: the formatted time before the stop, the overflow sentinel from it on. */
  predicate DayStamped(cfg: Config, legs: Legs, places: seq<Place>, mode: OutputMode, out: seq<Place>)
    requires WellFormed(legs) && |legs.anchors| == |places|
  {
    |out| == |places|
    && (forall k :: 0 <= k < StopFrom(cfg, legs, 0) && k < |places| ==>
          out[k] == Stamped(places[k], FormatVisitTime(AssignedAt(cfg, legs, k), mode)))
    && (forall k :: StopFrom(cfg, legs, 0) <= k < |places| ==> out[k] == Stamped(places[k], OverflowText))
  }

  /** The loop of `apply_visit_time_policy` over a day whose legs are given. */
  method WalkDay(plan: Plan, places: seq<Place>, ghost legs: Legs, mode: OutputMode) returns (out: seq<Place>, ws: seq<Warning>)
    requires LegsMatch(plan, places, legs)
    ensures DayStamped(plan.cfg, legs, places, mode, out)
    ensures ws == DayWarnings(plan.cfg, legs, Names(places))
  {
    ghost var names := Names(places);
    ws := [];
    out := places;
    var prev := 0;
    var i := 0;
    while i < |places|
      invariant 0 <= i <= |places| && |out| == |places|
      invariant StopFrom(plan.cfg, legs, 0) == StopFrom(plan.cfg, legs, i)
      invariant i > 0 ==> prev == AssignedAt(plan.cfg, legs, i - 1)
      invariant ws == WarningsUpTo(plan.cfg, legs, names, i)
      invariant forall k :: 0 <= k < i ==> out[k] == Stamped(places[k], FormatVisitTime(AssignedAt(plan.cfg, legs, k), mode))
      invariant forall k :: i <= k < |places| ==> out[k] == places[k]
    {
      var time, step := NextTime(plan, places, legs, i, prev);
      WarningsUpToNext(plan.cfg, legs, names, i);
      ws := ws + step;
      if time >= DayMinutes {
        out := StampOverflow(out, i);
        return;
      }
      out := out[i := Stamped(places[i], FormatVisitTime(time, mode))];
      prev := time;
      i := i + 1;
    }
  }

  /**
   * `apply_visit_time_policy`: walks the day left to right, writing each visit's time
   * and collecting warnings; at the first visit that reaches midnight it adds one
   * warning, stamps that visit and all later ones with the sentinel, and returns.
   */
  method ApplyVisitTimePolicy(places: seq<Place>, dayNumber: Option<int>, plan: Plan, mode: OutputMode)
    returns (out: seq<Place>, warnings: seq<string>)
    ensures out == PolicyPlaces(plan, places, mode)
    ensures warnings == RenderAll(DayPrefix(dayNumber), PolicyWarnings(plan, places))
  {
    if |places| == 0 {
      return places, [];
    }
    var ws;
    out, ws := WalkDay(plan, places, LegsOf(plan, places), mode);
    DayPlacesPointwise(plan.cfg, LegsOf(plan, places), places, mode, out);
    warnings := RenderAll(DayPrefix(dayNumber), ws);
  }

  // ---- Properties of a run ----

  /** An empty day comes back unchanged and without warnings. */
  lemma PolicyEmpty(plan: Plan, mode: OutputMode)
    ensures PolicyPlaces(plan, [], mode) == [] && PolicyWarnings(plan, []) == []
  {
  }

  /** The stop is the first visit whose time reaches midnight: every visit before it fits the day. */
  lemma {:induction false} StopFromSpec(cfg: Config, legs: Legs, k: nat)
    requires WellFormed(legs) && k <= |legs.anchors|
    ensures forall j :: k <= j < StopFrom(cfg, legs, k) ==> AssignedAt(cfg, legs, j) < DayMinutes
    ensures StopFrom(cfg, legs, k) < |legs.anchors| ==> AssignedAt(cfg, legs, StopFrom(cfg, legs, k)) >= DayMinutes
    decreases |legs.anchors| - k
  {
    if k < |legs.anchors| && AssignedAt(cfg, legs, k) < DayMinutes {
      StopFromSpec(cfg, legs, k + 1);
    }
  }

  /** The assigned time is a non-negative multiple of 30, no earlier than the base or the anchor, and the least such. */
  lemma AssignedBounds(cfg: Config, legs: Legs, k: nat)
    requires WellFormed(legs) && k < |legs.anchors|
    ensures var t := AssignedAt(cfg, legs, k); var b := BaseAt(cfg, legs, k); var a := legs.anchors[k];
      && t >= 0 && t % MinuteStep == 0 && t >= b
      && (a.Some? ==> t >= a.value)
      && t < Max(0, if a.Some? then Max(b, a.value) else b) + MinuteStep
  {
  }

  /** Without all four coordinates the transit adds nothing: the base is the previous time plus the stay. */
  lemma NoCoordinatesNoTransit(plan: Plan, places: seq<Place>, k: nat)
    requires 0 < k < |places| && !(HasCoordinates(places[k - 1]) && HasCoordinates(places[k]))
    ensures BaseAt(plan.cfg, LegsOf(plan, places), k) == TimeOf(plan, places, k - 1) + plan.cfg.stayMinutes
  {
    assert LegsOf(plan, places).transits[k] == TransitInto(plan, places, k);
  }

  /** With a haversine distance and a valid configuration, a transit estimate is at least the base minutes. */
  lemma TransitAtLeastBase(plan: Plan, places: seq<Place>, k: nat)
    requires ValidConfig(plan.cfg) && IsHaversine(plan.dist) && 0 < k < |places|
    ensures var t := LegsOf(plan, places).transits[k]; t.Some? ==> t.value >= plan.cfg.transitBaseMinutes
  {
    var a, b := places[k - 1], places[k];
    assert LegsOf(plan, places).transits[k] == TransitInto(plan, places, k);
    if TransitInto(plan, places, k).Some? {
      TransitBounds(plan.dist, a.latitude.value, a.longitude.value, b.latitude.value, b.longitude.value,
        plan.cfg.transitFactor, plan.cfg.transitBaseMinutes);
    }
  }

  /** Every known transit of the legs takes at least `m` minutes. */
  predicate TransitsAtLeast(legs: Legs, m: int)
  {
    forall k :: 0 <= k < |legs.transits| && legs.transits[k].Some? ==> legs.transits[k].value >= m
  }

  lemma LegsTransitsAtLeastBase(plan: Plan, places: seq<Place>)
    requires ValidConfig(plan.cfg) && IsHaversine(plan.dist)
    ensures TransitsAtLeast(LegsOf(plan, places), plan.cfg.transitBaseMinutes)
  {
    var legs := LegsOf(plan, places);
    forall k | 0 <= k < |legs.transits| && legs.transits[k].Some?
      ensures legs.transits[k].value >= plan.cfg.transitBaseMinutes
    {
      if k > 0 {
        TransitAtLeastBase(plan, places, k);
      }
    }
  }

  /** With no negative transit, each visit starts at least a stay after the one before it. */
  lemma LegAdvance(cfg: Config, legs: Legs, k: nat)
    requires WellFormed(legs) && 0 < k < |legs.anchors| && TransitsAtLeast(legs, 0)
    ensures AssignedAt(cfg, legs, k) >= AssignedAt(cfg, legs, k - 1) + cfg.stayMinutes
  {
    AssignedBounds(cfg, legs, k);
  }

  /** With no negative transit and a stay of at least a minute, the times of a day strictly increase. */
  lemma {:induction false} LegsIncrease(cfg: Config, legs: Legs, j: nat, k: nat)
    requires WellFormed(legs) && j < k < |legs.anchors| && TransitsAtLeast(legs, 0) && cfg.stayMinutes >= 1
    ensures AssignedAt(cfg, legs, j) < AssignedAt(cfg, legs, k)
    decreases k - j
  {
    LegAdvance(cfg, legs, k);
    if j < k - 1 {
      LegsIncrease(cfg, legs, j, k - 1);
    }
  }

  /** Each visit of a day starts at least a stay after the one before it. */
  lemma TimesAdvance(plan: Plan, places: seq<Place>, k: nat)
    requires ValidConfig(plan.cfg) && IsHaversine(plan.dist) && 0 < k < |places|
    ensures TimeOf(plan, places, k) >= TimeOf(plan, places, k - 1) + plan.cfg.stayMinutes
  {
    LegsTransitsAtLeastBase(plan, places);
    LegAdvance(plan.cfg, LegsOf(plan, places), k);
  }

  /** The times of a day strictly increase. */
  lemma TimesIncrease(plan: Plan, places: seq<Place>, j: nat, k: nat)
    requires ValidConfig(plan.cfg) && IsHaversine(plan.dist) && j < k < |places|
    ensures TimeOf(plan, places, j) < TimeOf(plan, places, k)
  {
    LegsTransitsAtLeastBase(plan, places);
    LegsIncrease(plan.cfg, LegsOf(plan, places), j, k);
  }

  /** Every visit before the stop gets its formatted time; from the stop on, the sentinel. */
  lemma PolicyStamps(plan: Plan, places: seq<Place>, mode: OutputMode, k: nat)
    requires k < |places|
    ensures var out := PolicyPlaces(plan, places, mode);
      && (k < Stop(plan, places) ==> out[k].visitTime == Some(FormatVisitTime(TimeOf(plan, places, k), mode)) && TimeOf(plan, places, k) < DayMinutes)
      && (k >= Stop(plan, places) ==> out[k].visitTime == Some(OverflowText))
      && out[k].section.None? && out[k].sectionHint.None?
      && out[k].(visitTime := places[k].visitTime, section := places[k].section, sectionHint := places[k].sectionHint) == places[k]
  {
    StopFromSpec(plan.cfg, LegsOf(plan, places), 0);
  }

  /** The time text a visit of a day ends up with: the formatted time before the stop, the sentinel from it on. */
  lemma DayStampAt(cfg: Config, legs: Legs, places: seq<Place>, mode: OutputMode, k: nat)
    requires WellFormed(legs) && |legs.anchors| == |places| && k < |places|
    ensures DayPlaces(cfg, legs, places, mode)[k].visitTime
      == Some(if k < StopFrom(cfg, legs, 0) then FormatVisitTime(AssignedAt(cfg, legs, k), mode) else OverflowText)
  {
  }

  /** A formatted time of the day parses back to itself. */
  lemma {:induction false} FormattedParses(text: Option<string>, t: int)
    requires 0 <= t < DayMinutes && text == Some(FormatHHMM(t))
    ensures var r := ParseTimeToMinutes(text); r.Some? && r.value == t
  {
    assert Max(0, t) % DayMinutes == t;
    FormatParses(t);
  }

  /** In `HHMM` mode every time stamped before the stop parses back to the minute the recurrence assigned. */
  lemma DayTimesParse(cfg: Config, legs: Legs, places: seq<Place>, k: nat)
    requires WellFormed(legs) && |legs.anchors| == |places| && k < StopFrom(cfg, legs, 0)
    ensures var r := ParseTimeToMinutes(DayPlaces(cfg, legs, places, HHMM)[k].visitTime);
      r.Some? && r.value == AssignedAt(cfg, legs, k)
  {
    StopFromSpec(cfg, legs, 0);
    AssignedBounds(cfg, legs, k);
    DayStampAt(cfg, legs, places, HHMM, k);
    FormattedParses(DayPlaces(cfg, legs, places, HHMM)[k].visitTime, AssignedAt(cfg, legs, k));
  }

  lemma PolicyTimesParse(plan: Plan, places: seq<Place>, k: nat)
    requires k < Stop(plan, places)
    ensures var r := ParseTimeToMinutes(PolicyPlaces(plan, places, HHMM)[k].visitTime);
      r.Some? && r.value == TimeOf(plan, places, k)
  {
    DayTimesParse(plan.cfg, LegsOf(plan, places), places, k);
  }

  /** A step's warnings: a long transit first exactly when the transit exceeds the threshold, then midnight or a late hour. */
  lemma StepWarningsCases(cfg: Config, legs: Legs, names: seq<string>, k: nat)
    requires WellFormed(legs) && |names| == |legs.anchors| && k < |names|
    ensures var step := StepWarnings(cfg, legs, names, k); var t := AssignedAt(cfg, legs, k); var tr := legs.transits[k];
      && |step| <= 2
      && ((|step| > 0 && step[0].LongTransit?) <==> (k > 0 && tr.Some? && tr.value > cfg.walkWarningMinutes))
      && (forall w :: w in step && w.LongTransit? ==> w == LongTransit(names[k - 1], names[k], tr.value))
      && (PastMidnight in step <==> t >= DayMinutes)
      && (LateVisit(names[k], t / 60) in step <==> t < DayMinutes && t / 60 >= cfg.lateHour)
      && (forall w :: w in step && w.LateVisit? ==> w == LateVisit(names[k], t / 60))
  {
  }

  /** No visit before the stop warns about midnight. */
  lemma {:induction false} NoMidnightBeforeStop(cfg: Config, legs: Legs, names: seq<string>, n: nat)
    requires WellFormed(legs) && |names| == |legs.anchors| && n <= StopFrom(cfg, legs, 0)
    ensures multiset(WarningsUpTo(cfg, legs, names, n))[PastMidnight] == 0
  {
    if n > 0 {
      NoMidnightBeforeStop(cfg, legs, names, n - 1);
      StopFromSpec(cfg, legs, 0);
      StepWarningsCases(cfg, legs, names, n - 1);
      assert multiset(StepWarnings(cfg, legs, names, n - 1))[PastMidnight] == 0;
    }
  }

  /** A day's warnings mention midnight at most once, exactly when the walk stops early, and that warning comes last. */
  lemma DayMidnightOnce(cfg: Config, legs: Legs, names: seq<string>)
    requires WellFormed(legs) && |names| == |legs.anchors|
    ensures var ws := DayWarnings(cfg, legs, names); var s := StopFrom(cfg, legs, 0);
      && multiset(ws)[PastMidnight] == (if s < |names| then 1 else 0)
      && (s < |names| ==> |ws| > 0 && ws[|ws| - 1] == PastMidnight)
  {
    var s := StopFrom(cfg, legs, 0);
    NoMidnightBeforeStop(cfg, legs, names, s);
    if s < |names| {
      StopFromSpec(cfg, legs, 0);
      WarningsUpToNext(cfg, legs, names, s);
      var walk := WalkWarnings(cfg, legs, names, s);
      assert StepWarnings(cfg, legs, names, s) == walk + [PastMidnight];
      assert multiset(walk)[PastMidnight] == 0;
    }
  }

  /** A run warns about midnight at most once, exactly when it stops early, and that warning comes last. */
  lemma MidnightWarnedOnce(plan: Plan, places: seq<Place>)
    ensures var ws := PolicyWarnings(plan, places);
      && multiset(ws)[PastMidnight] == (if Stop(plan, places) < |places| then 1 else 0)
      && (Stop(plan, places) < |places| ==> |ws| > 0 && ws[|ws| - 1] == PastMidnight)
  {
    DayMidnightOnce(plan.cfg, LegsOf(plan, places), Names(places));
  }
}
