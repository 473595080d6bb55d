/**
 * The skeleton node of the roadmap graph (`app/graph/roadmap/nodes/skeleton.py`)
 * and its legacy predecessor (`app/graph/roadmap/nodes.py`): the request's
 * destination segments are sorted and must tile the trip; each segment gets
 * one LLM skeleton reply, which is validated (day count, day numbers 1..N,
 * slot counts) and mapped from segment-local to trip-global day numbers;
 * the days of all segments are sorted and must cover the trip exactly.
 * The two versions differ only in the per-day slot targets, which the
 * legacy one does not have, and in some message texts. The LLM reply of the
 * k-th segment and the output parser are oracles; the rendering of a date
 * as ISO text is a parameter.
 */
module RoadmapSkeleton {
  import opened Wrappers
  import opened PyText
  import opened PyList
  import RoadmapUtils
  import opened CourseSchema
  import opened RoadmapGraphState

  /** The node of `nodes/skeleton.py`, or the legacy one of `nodes.py`. */
  datatype Variant = Current | Legacy

  /** The fixed error texts of the node. */
  datatype Notice = NoRequest | BadRequest | BadDateRange | NoSkeleton | CoverageMismatch

  function NoticeText(n: Notice): string
  {
    match n
    case NoRequest => "skeleton 생성에는 course_request가 필요합니다."
    case BadRequest => "course_request 형식이 올바르지 않습니다."
    case BadDateRange => "여행 날짜 범위가 올바르지 않습니다."
    case NoSkeleton => "Skeleton 생성에 실패했습니다."
    case CoverageMismatch => "지역 구간이 전체 일정과 일치하지 않습니다."
  }


  /** `_slot_range`: the allowed slots per day, a range of two consecutive counts. */
  function SlotRange(pace: PacePreference): (r: (int, int))
    ensures r.1 == r.0 + 1 && 4 <= r.0 <= 6
    ensures r == (6, 7) <==> pace == Dense
    ensures r == (4, 5) <==> pace == Relaxed
  {
    match pace
    case Dense => (6, 7)
    case Relaxed => (4, 5)
    case OtherPace => (5, 6)
  }

  // ---------------------------------------------------------------- slot targets

  /** What `_build_slot_targets` builds, case by case. */
  function SlotTargets(segmentDays: int, slotMin: int, slotMax: int): seq<int>
  {
    if segmentDays <= 0 then []
    else if slotMin >= slotMax then seq(segmentDays, _ => slotMin)
    else if segmentDays == 1 then [slotMin]
    else if segmentDays == 2 then [slotMax, slotMin]
    else [slotMin] + seq(segmentDays - 2, _ => slotMax) + [slotMin]
  }

  /**
   * One target per day of the segment, each within [min, max]: a single day
   * gets the minimum, two days the maximum then the minimum, longer segments
   * the minimum on their first and last day and the maximum in between, and
   * an empty range the minimum everywhere.
   */
  lemma SlotTargetsShape(segmentDays: int, slotMin: int, slotMax: int)
    ensures var r := SlotTargets(segmentDays, slotMin, slotMax);
      |r| == Max(0, segmentDays)
      && (slotMin <= slotMax ==> forall k :: 0 <= k < |r| ==> slotMin <= r[k] <= slotMax)
      && (slotMin >= slotMax ==> forall k :: 0 <= k < |r| ==> r[k] == slotMin)
      && (segmentDays == 1 ==> r == [slotMin])
      && (slotMin < slotMax && segmentDays == 2 ==> r == [slotMax, slotMin])
      && (slotMin < slotMax && segmentDays >= 3 ==>
            r[0] == slotMin && r[segmentDays - 1] == slotMin
            && forall k :: 0 < k < segmentDays - 1 ==> r[k] == slotMax)
  {
  }

  /** `_build_slot_targets`: a list of minimums whose inner entries are raised to the maximum. */
  method BuildSlotTargets(segmentDays: int, slotMin: int, slotMax: int) returns (targets: seq<int>)
    ensures targets == SlotTargets(segmentDays, slotMin, slotMax)
  {
    if segmentDays <= 0 {
      return [];
    }
    if slotMin >= slotMax {
      return seq(segmentDays, _ => slotMin);
    }
    if segmentDays == 1 {
      return [slotMin];
    }
    if segmentDays == 2 {
      return [slotMax, slotMin];
    }
    targets := seq(segmentDays, _ => slotMin);
    var index := 1;
    while index < segmentDays - 1
      invariant 1 <= index <= segmentDays - 1
      invariant |targets| == segmentDays
      invariant forall k :: 0 <= k < segmentDays ==> targets[k] == if 1 <= k < index then slotMax else slotMin
    {
      targets := targets[index := slotMax];
      index := index + 1;
    }
    ghost var spec := SlotTargets(segmentDays, slotMin, slotMax);
    assert forall k :: 0 <= k < segmentDays ==> targets[k] == spec[k];
  }

  // ---------------------------------------------------------------- plan validation

  /** A problem `_validate_plan` reports; its text is `PlanErrorText`. */
  datatype PlanError =
    | DayCountMismatch(expected: int, actual: int)
    | DayNumbersNotConsecutive
    | TargetMismatch(dayNumber: int, target: int)
    | SlotCountOutOfRange(dayNumber: int, count: int, slotMin: int, slotMax: int)

  function PlanErrorText(v: Variant, e: PlanError): string
  {
    match e
    case DayCountMismatch(expected, actual) =>
      "여행 일수는 " + IntText(expected) + "일이어야 하지만 " + IntText(actual) + "일로 생성되었습니다."
    case DayNumbersNotConsecutive =>
      if v == Current then "day_number는 1부터 연속되는 숫자여야 합니다." else "day_number는 1부터 연속된 숫자여야 합니다."
    case TargetMismatch(d, t) => IntText(d) + "일차 슬롯 수는 " + IntText(t) + "개여야 합니다."
    case SlotCountOutOfRange(d, c, lo, hi) =>
      IntText(d) + "일차 슬롯 수가 " + IntText(c) + "개입니다 (허용 범위: " + IntText(lo) + "-" + IntText(hi) + ")."
  }

  function PlanErrorTexts(v: Variant, errors: seq<PlanError>): (r: seq<string>)
    ensures |r| == |errors|
  {
    seq(|errors|, i requires 0 <= i < |errors| => PlanErrorText(v, errors[i]))
  }

  /** The integers from `a` to `b`. */
  function Interval(a: int, b: int): set<int>
    decreases b - a
  {
    if b < a then {} else Interval(a, b - 1) + {b}
  }

  lemma {:induction false} IntervalMembers(a: int, b: int)
    ensures forall n :: n in Interval(a, b) <==> a <= n <= b
    decreases b - a
  {
    if b >= a {
      IntervalMembers(a, b - 1);
    }
  }

  /** `set(range(1, n + 1))`. */
  function DayRange(n: int): set<int>
  {
    Interval(1, n)
  }

  /** The day numbers of a plan, as a set. */
  function DayNumbers(days: seq<PlanDay>): set<int>
    decreases |days|
  {
    if |days| == 0 then {} else DayNumbers(days[..|days| - 1]) + {days[|days| - 1].dayNumber}
  }

  lemma {:induction false} DayNumbersMembers(days: seq<PlanDay>)
    ensures forall x :: x in DayNumbers(days) <==> exists d :: d in days && d.dayNumber == x
    decreases |days|
  {
    if |days| > 0 {
      var init := days[..|days| - 1];
      DayNumbersMembers(init);
      assert days == init + [days[|days| - 1]];
      assert forall d :: d in days <==> d in init || d == days[|days| - 1];
    }
  }

  function DayNumberOf(d: PlanDay): int { d.dayNumber }

  /** The per-day problems: a count that misses its target (when there is one), then a count out of range. */
  function DayErrors(d: PlanDay, slotMin: int, slotMax: int, targets: seq<int>): seq<PlanError>
  {
    var count := |d.slots|;
    (if |targets| > 0 && 0 < d.dayNumber <= |targets| && count != targets[d.dayNumber - 1]
     then [TargetMismatch(d.dayNumber, targets[d.dayNumber - 1])] else [])
    + (if count < slotMin || count > slotMax then [SlotCountOutOfRange(d.dayNumber, count, slotMin, slotMax)] else [])
  }

  function DaysErrors(days: seq<PlanDay>, slotMin: int, slotMax: int, targets: seq<int>): seq<PlanError>
    decreases |days|
  {
    if |days| == 0 then []
    else DaysErrors(days[..|days| - 1], slotMin, slotMax, targets) + DayErrors(days[|days| - 1], slotMin, slotMax, targets)
  }

  /** What `_validate_plan` reports, in its order. */
  function PlanErrors(days: seq<PlanDay>, totalDays: int, slotMin: int, slotMax: int, targets: seq<int>): seq<PlanError>
  {
    (if |days| != totalDays then [DayCountMismatch(totalDays, |days|)] else [])
    + (if DayNumbers(days) != DayRange(totalDays) then [DayNumbersNotConsecutive] else [])
    + DaysErrors(days, slotMin, slotMax, targets)
  }

  /** A day within the slot range whose count meets its target, when it has one. */
  predicate DayFits(d: PlanDay, slotMin: int, slotMax: int, targets: seq<int>)
  {
    slotMin <= |d.slots| <= slotMax
    && (0 < d.dayNumber <= |targets| ==> |d.slots| == targets[d.dayNumber - 1])
  }

  /** `_validate_plan` (and the legacy one, whose targets are always empty). */
  method ValidatePlan(days: seq<PlanDay>, totalDays: int, slotMin: int, slotMax: int, targets: seq<int>)
    returns (errors: seq<PlanError>)
    ensures errors == PlanErrors(days, totalDays, slotMin, slotMax, targets)
  {
    errors := [];
    if |days| != totalDays {
      errors := errors + [DayCountMismatch(totalDays, |days|)];
    }
    if DayNumbers(days) != DayRange(totalDays) {
      errors := errors + [DayNumbersNotConsecutive];
    }
    ghost var header := errors;
    var i := 0;
    while i < |days|
      invariant 0 <= i <= |days|
      invariant errors == header + DaysErrors(days[..i], slotMin, slotMax, targets)
    {
      var day := days[i];
      var slotCount := |day.slots|;
      var found: seq<PlanError> := [];
      if |targets| > 0 && 0 < day.dayNumber <= |targets| {
        var targetCount := targets[day.dayNumber - 1];
        if slotCount != targetCount {
          found := found + [TargetMismatch(day.dayNumber, targetCount)];
        }
      }
      if slotCount < slotMin || slotCount > slotMax {
        found := found + [SlotCountOutOfRange(day.dayNumber, slotCount, slotMin, slotMax)];
      }
      assert found == DayErrors(day, slotMin, slotMax, targets);
      DaysErrorsSnoc(days, i, slotMin, slotMax, targets);
      AppendAssoc(header, DaysErrors(days[..i], slotMin, slotMax, targets), found);
      errors := errors + found;
      i := i + 1;
    }
    assert days[..|days|] == days;
  }

  lemma DaysErrorsSnoc(days: seq<PlanDay>, i: int, slotMin: int, slotMax: int, targets: seq<int>)
    requires 0 <= i < |days|
    ensures DaysErrors(days[..i + 1], slotMin, slotMax, targets)
            == DaysErrors(days[..i], slotMin, slotMax, targets) + DayErrors(days[i], slotMin, slotMax, targets)
  {
    assert days[..i + 1][..i] == days[..i];
  }

  lemma {:induction false} DaysErrorsEmpty(days: seq<PlanDay>, slotMin: int, slotMax: int, targets: seq<int>)
    ensures |DaysErrors(days, slotMin, slotMax, targets)| == 0
            <==> forall i :: 0 <= i < |days| ==> DayFits(days[i], slotMin, slotMax, targets)
    decreases |days|
  {
    if |days| > 0 {
      var init := days[..|days| - 1];
      DaysErrorsEmpty(init, slotMin, slotMax, targets);
      assert forall i :: 0 <= i < |init| ==> init[i] == days[i];
    }
  }

  /**
   * A plan passes validation exactly when it has the expected number of
   * days, numbered 1..N, and every day's slot count lies in the range and
   * meets its target; a wrong day count is the first error reported.
   */
  lemma ValidPlanIff(days: seq<PlanDay>, totalDays: int, slotMin: int, slotMax: int, targets: seq<int>)
    ensures |PlanErrors(days, totalDays, slotMin, slotMax, targets)| == 0
            <==> (|days| == totalDays && DayNumbers(days) == DayRange(totalDays)
                  && forall i :: 0 <= i < |days| ==> DayFits(days[i], slotMin, slotMax, targets))
    ensures |days| != totalDays ==> PlanErrors(days, totalDays, slotMin, slotMax, targets)[0] == DayCountMismatch(totalDays, |days|)
  {
    DaysErrorsEmpty(days, slotMin, slotMax, targets);
  }

  /** Without targets, as in the legacy node, no target error is ever reported. */
  lemma {:induction false} NoTargetsNoTargetErrors(days: seq<PlanDay>, slotMin: int, slotMax: int)
    ensures forall e :: e in DaysErrors(days, slotMin, slotMax, []) ==> !e.TargetMismatch?
    decreases |days|
  {
    if |days| > 0 {
      NoTargetsNoTargetErrors(days[..|days| - 1], slotMin, slotMax);
    }
  }

  /**
   * A plan that passes validation against the segment's targets has every
   * day numbered within the segment, with exactly its target's slots.
   */
  lemma ValidPlanMeetsTargets(days: seq<PlanDay>, n: int, slotMin: int, slotMax: int)
    requires |PlanErrors(days, n, slotMin, slotMax, SlotTargets(n, slotMin, slotMax))| == 0
    ensures forall i :: 0 <= i < |days| ==>
      1 <= days[i].dayNumber <= n && |days[i].slots| == SlotTargets(n, slotMin, slotMax)[days[i].dayNumber - 1]
  {
    var targets := SlotTargets(n, slotMin, slotMax);
    ValidPlanIff(days, n, slotMin, slotMax, targets);
    SlotTargetsShape(n, slotMin, slotMax);
    IntervalMembers(1, n);
    DayNumbersMembers(days);
    forall i | 0 <= i < |days|
      ensures 1 <= days[i].dayNumber <= n && |days[i].slots| == targets[days[i].dayNumber - 1]
    {
      assert days[i].dayNumber in DayNumbers(days);
      assert DayFits(days[i], slotMin, slotMax, targets);
    }
  }

  // ---------------------------------------------------------------- area warnings

  /** The distinct stripped, lower-cased areas of a day's slots that have one. */
  function AreaSet(d: PlanDay): set<string>
  {
    set s | s in d.slots && |s.area| > 0 :: Lower(Strip(s.area))
  }

  /** A day with more than three distinct areas, and how many. */
  datatype AreaWarning = AreaWarning(dayNumber: int, areaCount: nat)

  function AreaWarningText(v: Variant, w: AreaWarning): string
  {
    IntText(w.dayNumber) + "일차에 서로 다른 지역이 " + IntText(w.areaCount)
    + (if v == Current then "개입니다. 이동 동선을 고려하세요." else "개입니다. 클러스터링을 고려하세요.")
  }

  function AreaWarningTexts(v: Variant, ws: seq<AreaWarning>): (r: seq<string>)
    ensures |r| == |ws|
  {
    seq(|ws|, i requires 0 <= i < |ws| => AreaWarningText(v, ws[i]))
  }

  function DayAreaWarning(d: PlanDay): seq<AreaWarning>
  {
    if |AreaSet(d)| > 3 then [AreaWarning(d.dayNumber, |AreaSet(d)|)] else []
  }

  function AreaWarningsOf(days: seq<PlanDay>): seq<AreaWarning>
    decreases |days|
  {
    if |days| == 0 then [] else AreaWarningsOf(days[..|days| - 1]) + DayAreaWarning(days[|days| - 1])
  }

  /** `_area_warnings`. */
  method AreaWarnings(days: seq<PlanDay>) returns (warnings: seq<AreaWarning>)
    ensures warnings == AreaWarningsOf(days)
  {
    warnings := [];
    var i := 0;
    while i < |days|
      invariant 0 <= i <= |days|
      invariant warnings == AreaWarningsOf(days[..i])
    {
      var areas := AreaSet(days[i]);
      if |areas| > 3 {
        warnings := warnings + [AreaWarning(days[i].dayNumber, |areas|)];
      }
      assert days[..i + 1][..i] == days[..i];
      i := i + 1;
    }
    assert days[..|days|] == days;
  }

  /** There is a warning exactly for each day with more than three distinct areas, carrying their number. */
  lemma {:induction false} AreaWarningsSpec(days: seq<PlanDay>)
    ensures |AreaWarningsOf(days)| <= |days|
    ensures forall w :: w in AreaWarningsOf(days) <==>
      exists i :: 0 <= i < |days| && |AreaSet(days[i])| > 3 && w == AreaWarning(days[i].dayNumber, |AreaSet(days[i])|)
    decreases |days|
  {
    hide AreaSet;
    if |days| > 0 {
      var init := days[..|days| - 1];
      var last := |days| - 1;
      AreaWarningsSpec(init);
      assert AreaWarningsOf(days) == AreaWarningsOf(init) + DayAreaWarning(days[last]);
      hide AreaWarningsOf;
      forall w
        ensures w in AreaWarningsOf(days) <==>
          exists i :: 0 <= i < |days| && |AreaSet(days[i])| > 3 && w == AreaWarning(days[i].dayNumber, |AreaSet(days[i])|)
      {
        if w in AreaWarningsOf(init) {
          var i :| 0 <= i < |init| && |AreaSet(init[i])| > 3 && w == AreaWarning(init[i].dayNumber, |AreaSet(init[i])|);
          assert init[i] == days[i];
        }
        if exists i :: 0 <= i < |days| && |AreaSet(days[i])| > 3 && w == AreaWarning(days[i].dayNumber, |AreaSet(days[i])|) {
          var i :| 0 <= i < |days| && |AreaSet(days[i])| > 3 && w == AreaWarning(days[i].dayNumber, |AreaSet(days[i])|);
          if i < last {
            assert init[i] == days[i];
          }
        }
      }
    }
  }

  // ---------------------------------------------------------------- region ranges

  /** A problem `_normalize_region_ranges` reports; its text is `RegionErrorText`. */
  datatype RegionError =
    | EmptyRegions
    | RegionGap(current: int, segmentStart: int)
    | RegionOverlap(region: string, segmentStart: int)
    | RangeMismatch

  function RegionErrorText(v: Variant, e: RegionError, showDate: int -> string): string
  {
    match e
    case EmptyRegions => "regions가 비어 있습니다."
    case RegionGap(c, s) => "지역 구간 사이에 빈 날짜가 있습니다: " + showDate(c) + "부터 " + showDate(s) + " 이전까지 공백"
    case RegionOverlap(r, s) => "지역 구간이 겹칩니다: " + r + " 시작일 " + showDate(s)
    case RangeMismatch =>
      if v == Current then "지역 구간이 전체 여행 기간과 맞지 않습니다." else "지역 구간이 전체 여행 기간을 모두 덮지 못합니다."
  }

  function RegionErrorTexts(v: Variant, errors: seq<RegionError>, showDate: int -> string): (r: seq<string>)
    ensures |r| == |errors|
  {
    seq(|errors|, i requires 0 <= i < |errors| => RegionErrorText(v, errors[i], showDate))
  }

  function StartOf(r: RegionRange): int { r.startDate }

  /** The problem with a segment met on day `current`: a gap before it, or an overlap. */
  function SegmentErrors(seg: RegionRange, current: int): seq<RegionError>
  {
    (if seg.startDate > current then [RegionGap(current, seg.startDate)] else [])
    + (if seg.startDate < current then [RegionOverlap(seg.region, seg.startDate)] else [])
  }

  /** The problems met walking the segments from day `current` on. */
  function ScanErrors(segs: seq<RegionRange>, current: int): seq<RegionError>
    decreases |segs|
  {
    if |segs| == 0 then []
    else SegmentErrors(segs[0], current) + ScanErrors(segs[1..], segs[0].endDate + 1)
  }

  /** The day after the last segment, walking from `current`. */
  function ScanEnd(segs: seq<RegionRange>, current: int): int
    decreases |segs|
  {
    if |segs| == 0 then current else ScanEnd(segs[1..], segs[0].endDate + 1)
  }

  /** What `_normalize_region_ranges` returns: the segments sorted by start date and the problems found. */
  function RegionRanges(regions: seq<RegionRange>, startDate: int, endDate: int): (seq<RegionRange>, seq<RegionError>)
  {
    if |regions| == 0 then ([], [EmptyRegions])
    else
      var sorted := SortBy(regions, StartOf);
      (sorted, ScanErrors(sorted, startDate) + (if ScanEnd(sorted, startDate) != endDate + 1 then [RangeMismatch] else []))
  }

  /** `_normalize_region_ranges`: sort, then walk the segments with the next expected day. */
  method NormalizeRegionRanges(regions: seq<RegionRange>, startDate: int, endDate: int)
    returns (sortedRegions: seq<RegionRange>, errors: seq<RegionError>)
    ensures (sortedRegions, errors) == RegionRanges(regions, startDate, endDate)
  {
    if |regions| == 0 {
      return [], [EmptyRegions];
    }
    sortedRegions := SortBy(regions, StartOf);
    var current;
    errors, current := ScanRegions(sortedRegions, startDate);
    if current != endDate + 1 {
      errors := errors + [RangeMismatch];
    } else {
      assert errors + [] == errors;
    }
  }

  /** The walk of `_normalize_region_ranges` over the sorted segments: the problems found and the day after the last one. */
  method ScanRegions(segs: seq<RegionRange>, startDate: int) returns (errors: seq<RegionError>, current: int)
    ensures errors == ScanErrors(segs, startDate) && current == ScanEnd(segs, startDate)
  {
    hide ScanErrors, ScanEnd;
    errors := [];
    current := startDate;
    var i := 0;
    while i < |segs|
      invariant 0 <= i <= |segs|
      invariant errors + ScanErrors(segs[i..], current) == ScanErrors(segs, startDate)
      invariant ScanEnd(segs[i..], current) == ScanEnd(segs, startDate)
    {
      var segment := segs[i];
      var found: seq<RegionError> := [];
      if segment.startDate > current {
        found := found + [RegionGap(current, segment.startDate)];
      }
      if segment.startDate < current {
        found := found + [RegionOverlap(segment.region, segment.startDate)];
      }
      assert found == SegmentErrors(segment, current);
      ScanStep(segs, i, current);
      AppendAssoc(errors, found, ScanErrors(segs[i + 1..], segment.endDate + 1));
      errors := errors + found;
      current := segment.endDate + 1;
      i := i + 1;
    }
    assert segs[|segs|..] == [];
    ScanNone(current);
  }

  lemma ScanNone(current: int)
    ensures ScanErrors([], current) == [] && ScanEnd([], current) == current
  {
  }

  lemma ScanStep(segs: seq<RegionRange>, i: int, current: int)
    requires 0 <= i < |segs|
    ensures ScanErrors(segs[i..], current) == SegmentErrors(segs[i], current) + ScanErrors(segs[i + 1..], segs[i].endDate + 1)
    ensures ScanEnd(segs[i..], current) == ScanEnd(segs[i + 1..], segs[i].endDate + 1)
  {
    assert segs[i..][1..] == segs[i + 1..];
  }

  /** Segments that start at `start`, each the day after the previous ends, the last ending at `end`. */
  predicate Tiles(segs: seq<RegionRange>, start: int, end: int)
  {
    |segs| > 0 && segs[0].startDate == start && segs[|segs| - 1].endDate == end
    && forall k :: 0 <= k < |segs| - 1 ==> segs[k + 1].startDate == segs[k].endDate + 1
  }

  /** Tiling from `start` is a first segment starting there followed by a tiling from the day after it. */
  lemma TilesCons(segs: seq<RegionRange>, start: int, end: int)
    requires |segs| > 1
    ensures Tiles(segs, start, end) <==> segs[0].startDate == start && Tiles(segs[1..], segs[0].endDate + 1, end)
  {
    var rest := segs[1..];
    assert forall k :: 0 <= k < |rest| ==> rest[k] == segs[k + 1];
    if segs[0].startDate == start && Tiles(rest, segs[0].endDate + 1, end) {
      forall k | 0 <= k < |segs| - 1 ensures segs[k + 1].startDate == segs[k].endDate + 1 {
        if k > 0 {
          assert rest[k] == segs[k + 1] && rest[k - 1] == segs[k];
        }
      }
    }
  }

  /** The walk finds no problem and ends the day after `end` exactly when the segments tile [current, end]. */
  lemma {:induction false} ScanTiles(segs: seq<RegionRange>, current: int, end: int)
    requires |segs| > 0
    ensures (|ScanErrors(segs, current)| == 0 && ScanEnd(segs, current) == end + 1) <==> Tiles(segs, current, end)
    decreases |segs|
  {
    var next := segs[0].endDate + 1;
    if |segs| == 1 {
      assert ScanErrors(segs[1..], next) == [] && ScanEnd(segs[1..], next) == next;
    } else {
      ScanTiles(segs[1..], next, end);
      TilesCons(segs, current, end);
    }
  }

  /**
   * Empty regions give a single error. Otherwise the result is the regions
   * sorted by start date, and it comes without errors exactly when the
   * sorted segments tile the trip from its first to its last day.
   */
  lemma RegionRangesSpec(regions: seq<RegionRange>, startDate: int, endDate: int)
    ensures |regions| == 0 ==> RegionRanges(regions, startDate, endDate) == ([], [EmptyRegions])
    ensures |regions| > 0 ==>
      var r := RegionRanges(regions, startDate, endDate);
      multiset(r.0) == multiset(regions) && SortedBy(r.0, StartOf)
      && (|r.1| == 0 <==> Tiles(r.0, startDate, endDate))
  {
    if |regions| > 0 {
      var sorted := SortBy(regions, StartOf);
      SortBySpec(regions, StartOf);
      ScanTiles(sorted, startDate, endDate);
    }
  }

  // ---------------------------------------------------------------- generation

  /** `global_day`: the date of local day `d` of the segment, counted from the trip's first day. */
  function MapDay(d: PlanDay, seg: RegionRange, tripStart: int): (r: PlanDay)
    ensures r.dayNumber == d.dayNumber + (seg.startDate - tripStart)
    ensures r.region == seg.region && r.slots == d.slots
  {
    var dayDate := seg.startDate + (d.dayNumber - 1);
    PlanDay(dayDate - tripStart + 1, seg.region, d.slots)
  }

  function MapDays(plan: seq<PlanDay>, seg: RegionRange, tripStart: int): (r: seq<PlanDay>)
    ensures |r| == |plan|
  {
    seq(|plan|, i requires 0 <= i < |plan| => MapDay(plan[i], seg, tripStart))
  }

  /**
   * How a reply's content is read into a skeleton: `strip_code_fence`, then
   * the structured-output parser, `None` when the parse fails.
   */
  function ReadPlan(parse: string -> Option<seq<PlanDay>>): string -> Option<seq<PlanDay>>
  {
    content => parse(RoadmapUtils.StripCodeFence(content))
  }

  /** The parsed skeleton of the k-th segment's reply, `None` when the call or the parse fails. */
  function SegmentPlan(reply: nat -> Option<string>, readPlan: string -> Option<seq<PlanDay>>, k: nat): Option<seq<PlanDay>>
  {
    match reply(k)
    case None => None
    case Some(content) => readPlan(content)
  }

  /** The targets a segment is validated against: none in the legacy node. */
  function TargetsFor(v: Variant, segmentDays: int, slotMin: int, slotMax: int): seq<int>
  {
    if v == Current then SlotTargets(segmentDays, slotMin, slotMax) else []
  }

  /** How the walk over the segments ends. */
  datatype SegmentsOutcome =
    | AllValid(days: seq<PlanDay>, warnings: seq<AreaWarning>)
    | GenerationFailed
    | PlanRejected(plan: seq<PlanDay>, warnings: seq<AreaWarning>, errors: seq<PlanError>)

  /** One segment's turn of the loop: a failed call or parse, or the plan with its problems and its area warnings. */
  datatype SegmentStep =
    | StepFailed
    | StepPlanned(plan: seq<PlanDay>, errors: seq<PlanError>, warnings: seq<AreaWarning>)

  function SegmentStepOf(v: Variant, seg: RegionRange, slotMin: int, slotMax: int,
                         reply: nat -> Option<string>, readPlan: string -> Option<seq<PlanDay>>, k: nat): SegmentStep
  {
    match SegmentPlan(reply, readPlan, k)
    case None => StepFailed
    case Some(plan) =>
      var segmentDays := seg.endDate - seg.startDate + 1;
      StepPlanned(plan, PlanErrors(plan, segmentDays, slotMin, slotMax, TargetsFor(v, segmentDays, slotMin, slotMax)),
                  AreaWarningsOf(plan))
  }

  /** A planned step carries its plan's validation errors against the segment's targets. */
  lemma StepErrors(v: Variant, seg: RegionRange, slotMin: int, slotMax: int,
                   reply: nat -> Option<string>, readPlan: string -> Option<seq<PlanDay>>, k: nat)
    requires SegmentStepOf(v, seg, slotMin, slotMax, reply, readPlan, k).StepPlanned?
    ensures var step := SegmentStepOf(v, seg, slotMin, slotMax, reply, readPlan, k);
      var n := seg.endDate - seg.startDate + 1;
      step.errors == PlanErrors(step.plan, n, slotMin, slotMax, TargetsFor(v, n, slotMin, slotMax))
  {
    hide PlanErrors, TargetsFor, AreaWarningsOf, SegmentPlan;
  }

  /** Each segment's turn of the loop, in order, the k-th answered by the k-th reply. */
  function StepsOf(v: Variant, segs: seq<RegionRange>, slotMin: int, slotMax: int,
                   reply: nat -> Option<string>, readPlan: string -> Option<seq<PlanDay>>): (r: seq<SegmentStep>)
    ensures |r| == |segs|
    decreases |segs|
  {
    if |segs| == 0 then []
    else StepsOf(v, segs[..|segs| - 1], slotMin, slotMax, reply, readPlan)
         + [SegmentStepOf(v, segs[|segs| - 1], slotMin, slotMax, reply, readPlan, |segs| - 1)]
  }

  /** The k-th turn is the k-th segment's, answered by the k-th reply. */
  lemma {:induction false} StepsOfIndex(v: Variant, segs: seq<RegionRange>, slotMin: int, slotMax: int,
                                        reply: nat -> Option<string>, readPlan: string -> Option<seq<PlanDay>>, k: nat)
    requires k < |segs|
    ensures StepsOf(v, segs, slotMin, slotMax, reply, readPlan)[k]
      == SegmentStepOf(v, segs[k], slotMin, slotMax, reply, readPlan, k)
    decreases |segs|
  {
    if k < |segs| - 1 {
      var init := segs[..|segs| - 1];
      StepsOfIndex(v, init, slotMin, slotMax, reply, readPlan, k);
      assert init[k] == segs[k];
    }
  }

  /** Every planned step carries its plan's validation errors against its segment's targets. */
  predicate StepsChecked(v: Variant, segs: seq<RegionRange>, slotMin: int, slotMax: int, steps: seq<SegmentStep>)
    requires |steps| == |segs|
  {
    forall k :: 0 <= k < |segs| && steps[k].StepPlanned? ==>
      steps[k].errors == PlanErrors(steps[k].plan, segs[k].endDate - segs[k].startDate + 1, slotMin, slotMax,
                                    TargetsFor(v, segs[k].endDate - segs[k].startDate + 1, slotMin, slotMax))
  }

  lemma StepsOfChecked(v: Variant, segs: seq<RegionRange>, slotMin: int, slotMax: int,
                       reply: nat -> Option<string>, readPlan: string -> Option<seq<PlanDay>>)
    ensures StepsChecked(v, segs, slotMin, slotMax, StepsOf(v, segs, slotMin, slotMax, reply, readPlan))
  {
    var steps := StepsOf(v, segs, slotMin, slotMax, reply, readPlan);
    forall k | 0 <= k < |segs| && steps[k].StepPlanned?
      ensures steps[k].errors == PlanErrors(steps[k].plan, segs[k].endDate - segs[k].startDate + 1, slotMin, slotMax,
                                            TargetsFor(v, segs[k].endDate - segs[k].startDate + 1, slotMin, slotMax))
    {
      StepsOfIndex(v, segs, slotMin, slotMax, reply, readPlan, k);
      StepErrors(v, segs[k], slotMin, slotMax, reply, readPlan, k);
    }
  }

  /**
   * The segment loop of `generate_skeleton` from segment `k` on, over the
   * segments' turns, with the days and warnings so far.
   */
  function RunFrom(segs: seq<RegionRange>, tripStart: int, steps: seq<SegmentStep>,
                   k: nat, days: seq<PlanDay>, warnings: seq<AreaWarning>): SegmentsOutcome
    requires k <= |segs| == |steps|
    decreases |segs| - k
  {
    if k == |segs| then AllValid(days, warnings)
    else
      match steps[k]
      case StepFailed => GenerationFailed
      case StepPlanned(plan, errors, found) =>
        if |errors| > 0 then PlanRejected(plan, warnings + found, errors)
        else RunFrom(segs, tripStart, steps, k + 1, days + MapDays(plan, segs[k], tripStart), warnings + found)
  }

  /** The state `generate_skeleton` returns once the request and its segments are checked. */
  function SkeletonAfterRun(state: RoadmapState, totalDays: int, slots: (int, int), outcome: SegmentsOutcome,
                            v: Variant): RoadmapState
  {
    match outcome
    case GenerationFailed => state.(error := Some(NoticeText(NoSkeleton)))
    case PlanRejected(plan, warnings, errors) =>
      state.(skeletonPlan := Some(plan), tripDays := Some(totalDays), slotMin := Some(slots.0),
             slotMax := Some(slots.1), skeletonWarnings := Some(AreaWarningTexts(v, warnings)),
             error := Some(Join(PlanErrorTexts(v, errors), " ; ")))
    case AllValid(days, warnings) =>
      var sorted := SortBy(days, DayNumberOf);
      var filled := state.(skeletonPlan := Some(sorted), tripDays := Some(totalDays), slotMin := Some(slots.0),
                           slotMax := Some(slots.1), skeletonWarnings := Some(AreaWarningTexts(v, warnings)));
      if DayNumbers(sorted) != DayRange(totalDays) then filled.(error := Some(NoticeText(CoverageMismatch))) else filled
  }

  /** The state `generate_skeleton` returns. */
  function SkeletonOf(v: Variant, state: RoadmapState, reply: nat -> Option<string>, parse: string -> Option<seq<PlanDay>>,
                      showDate: int -> string): RoadmapState
  {
    if state.courseRequest.None? then state.(error := Some(NoticeText(NoRequest)))
    else match ValidateCourseRequest(state.courseRequest.value)
    case None => state.(error := Some(NoticeText(BadRequest)))
    case Some(req) => SkeletonForRequest(v, state, req, reply, ReadPlan(parse), showDate)
  }

  /** The state `generate_skeleton` returns once the request validated. */
  function SkeletonForRequest(v: Variant, state: RoadmapState, req: CourseRequest, reply: nat -> Option<string>,
                              readPlan: string -> Option<seq<PlanDay>>, showDate: int -> string): RoadmapState
  {
    if req.endDate - req.startDate + 1 < 1 then state.(error := Some(NoticeText(BadDateRange)))
    else SkeletonForRanges(v, state, req, RegionRanges(req.regions, req.startDate, req.endDate), reply, readPlan, showDate)
  }

  /** The state `generate_skeleton` returns once the segments are sorted and checked. */
  function SkeletonForRanges(v: Variant, state: RoadmapState, req: CourseRequest,
                             ranges: (seq<RegionRange>, seq<RegionError>), reply: nat -> Option<string>,
                             readPlan: string -> Option<seq<PlanDay>>, showDate: int -> string): RoadmapState
  {
    if |ranges.1| > 0 then state.(error := Some(Join(RegionErrorTexts(v, ranges.1, showDate), " ; ")))
    else SkeletonForSegments(v, state, req, ranges.0, reply, readPlan)
  }

  /** The state `generate_skeleton` returns after the segment loop over `segs`. */
  function SkeletonForSegments(v: Variant, state: RoadmapState, req: CourseRequest, segs: seq<RegionRange>,
                               reply: nat -> Option<string>, readPlan: string -> Option<seq<PlanDay>>): RoadmapState
  {
    SkeletonAfterRun(state, req.endDate - req.startDate + 1, SlotRange(req.pacePreference),
                     RunFrom(segs, req.startDate, StepsOf(v, segs, SlotRange(req.pacePreference).0,
                                                          SlotRange(req.pacePreference).1, reply, readPlan), 0, [], []), v)
  }

  /** The inner loop of `generate_skeleton`: the segment's days with trip-global day numbers, appended. */
  method AppendGlobalDays(fullDays: seq<PlanDay>, plan: seq<PlanDay>, segment: RegionRange, tripStart: int)
    returns (r: seq<PlanDay>)
    ensures r == fullDays + MapDays(plan, segment, tripStart)
  {
    r := fullDays;
    var j := 0;
    while j < |plan|
      invariant 0 <= j <= |plan|
      invariant r == fullDays + MapDays(plan[..j], segment, tripStart)
    {
      var localDay := plan[j].dayNumber;
      var dayDate := segment.startDate + (localDay - 1);
      var globalDay := dayDate - tripStart + 1;
      r := r + [PlanDay(globalDay, segment.region, plan[j].slots)];
      assert MapDays(plan[..j + 1], segment, tripStart) == MapDays(plan[..j], segment, tripStart) + [MapDay(plan[j], segment, tripStart)];
      j := j + 1;
    }
    assert plan[..|plan|] == plan;
  }

  /**
   * The body of the segment loop of `generate_skeleton`: the segment's
   * targets, one skeleton call, the read of its reply (`ReadPlan`), the plan's
   * validation and its area warnings.
   */
  method PlanSegment(v: Variant, segment: RegionRange, slotMin: int, slotMax: int,
                     reply: nat -> Option<string>, readPlan: string -> Option<seq<PlanDay>>, k: nat)
    returns (step: SegmentStep)
    ensures step == SegmentStepOf(v, segment, slotMin, slotMax, reply, readPlan, k)
  {
    var segmentDays := segment.endDate - segment.startDate + 1;
    var slotTargets: seq<int> := [];
    if v == Current {
      slotTargets := BuildSlotTargets(segmentDays, slotMin, slotMax);
    }
    var response := reply(k);
    if response.None? {
      return StepFailed;
    }
    var parsed := readPlan(response.value);
    if parsed.None? {
      return StepFailed;
    }
    var plan := parsed.value;
    var validationErrors := ValidatePlan(plan, segmentDays, slotMin, slotMax, slotTargets);
    var dayWarnings := AreaWarnings(plan);
    return StepPlanned(plan, validationErrors, dayWarnings);
  }

  /**
   * The segment loop of `generate_skeleton`: for each segment in order, ask
   * for its skeleton, validate it against the segment's targets, collect its
   * area warnings, and stop at the first failure or rejected plan.
   */
  method RunSegments(v: Variant, segs: seq<RegionRange>, tripStart: int, slotMin: int, slotMax: int,
                     reply: nat -> Option<string>, readPlan: string -> Option<seq<PlanDay>>)
    returns (outcome: SegmentsOutcome)
    ensures outcome == RunFrom(segs, tripStart, StepsOf(v, segs, slotMin, slotMax, reply, readPlan), 0, [], [])
  {
    ghost var steps := StepsOf(v, segs, slotMin, slotMax, reply, readPlan);
    var fullDays: seq<PlanDay> := [];
    var warnings: seq<AreaWarning> := [];
    var k := 0;
    while k < |segs|
      invariant 0 <= k <= |segs|
      invariant RunFrom(segs, tripStart, steps, k, fullDays, warnings) == RunFrom(segs, tripStart, steps, 0, [], [])
      decreases |segs| - k
    {
      var step := PlanSegment(v, segs[k], slotMin, slotMax, reply, readPlan, k);
      StepsOfIndex(v, segs, slotMin, slotMax, reply, readPlan, k);
      if step.StepFailed? {
        return GenerationFailed;
      }
      warnings := warnings + step.warnings;
      if |step.errors| > 0 {
        return PlanRejected(step.plan, warnings, step.errors);
      }
      fullDays := AppendGlobalDays(fullDays, step.plan, segs[k], tripStart);
      k := k + 1;
    }
    return AllValid(fullDays, warnings);
  }

  /** `generate_skeleton`: the request is required and must validate. */
  method GenerateSkeleton(v: Variant, state: RoadmapState, reply: nat -> Option<string>,
                          parse: string -> Option<seq<PlanDay>>, showDate: int -> string)
    returns (out: RoadmapState)
    ensures out == SkeletonOf(v, state, reply, parse, showDate)
  {
    if state.courseRequest.None? {
      return state.(error := Some(NoticeText(NoRequest)));
    }
    var validated := ValidateCourseRequest(state.courseRequest.value);
    if validated.None? {
      return state.(error := Some(NoticeText(BadRequest)));
    }
    out := GenerateForRequest(v, state, validated.value, reply, ReadPlan(parse), showDate);
  }

  /** The rest of `generate_skeleton`: the date range, the segments, the segment loop. */
  method GenerateForRequest(v: Variant, state: RoadmapState, request: CourseRequest, reply: nat -> Option<string>,
                            readPlan: string -> Option<seq<PlanDay>>, showDate: int -> string)
    returns (out: RoadmapState)
    ensures out == SkeletonForRequest(v, state, request, reply, readPlan, showDate)
  {
    var totalDays := request.endDate - request.startDate + 1;
    if totalDays < 1 {
      return state.(error := Some(NoticeText(BadDateRange)));
    }
    var sortedRegions, regionErrors := NormalizeRegionRanges(request.regions, request.startDate, request.endDate);
    out := GenerateForRanges(v, state, request, sortedRegions, regionErrors, reply, readPlan, showDate);
  }

  /** The segment errors reported, or the segment loop run and its outcome stored. */
  method GenerateForRanges(v: Variant, state: RoadmapState, request: CourseRequest,
                           sortedRegions: seq<RegionRange>, regionErrors: seq<RegionError>,
                           reply: nat -> Option<string>, readPlan: string -> Option<seq<PlanDay>>, showDate: int -> string)
    returns (out: RoadmapState)
    ensures out == SkeletonForRanges(v, state, request, (sortedRegions, regionErrors), reply, readPlan, showDate)
  {
    if |regionErrors| > 0 {
      return state.(error := Some(Join(RegionErrorTexts(v, regionErrors, showDate), " ; ")));
    }
    out := RunAndStore(v, state, request, sortedRegions, reply, readPlan);
  }

  /** The segment loop over the sorted segments, and its outcome stored in the state. */
  method RunAndStore(v: Variant, state: RoadmapState, request: CourseRequest, segs: seq<RegionRange>,
                     reply: nat -> Option<string>, readPlan: string -> Option<seq<PlanDay>>)
    returns (out: RoadmapState)
    ensures out == SkeletonForSegments(v, state, request, segs, reply, readPlan)
  {
    var slots := SlotRange(request.pacePreference);
    var outcome := RunSegments(v, segs, request.startDate, slots.0, slots.1, reply, readPlan);
    out := StoreSkeleton(state, request.endDate - request.startDate + 1, slots, outcome, v);
  }

  /** The end of `generate_skeleton`: the outcome of the segment loop stored in the state. */
  method StoreSkeleton(state: RoadmapState, totalDays: int, slots: (int, int), outcome: SegmentsOutcome, v: Variant)
    returns (out: RoadmapState)
    ensures out == SkeletonAfterRun(state, totalDays, slots, outcome, v)
  {
    match outcome {
      case GenerationFailed =>
        return state.(error := Some(NoticeText(NoSkeleton)));
      case PlanRejected(plan, warnings, errors) =>
        return state.(skeletonPlan := Some(plan), tripDays := Some(totalDays), slotMin := Some(slots.0),
                      slotMax := Some(slots.1), skeletonWarnings := Some(AreaWarningTexts(v, warnings)),
                      error := Some(Join(PlanErrorTexts(v, errors), " ; ")));
      case AllValid(fullDays, warnings) =>
        var sortedDays := SortBy(fullDays, DayNumberOf);
        out := state.(skeletonPlan := Some(sortedDays), tripDays := Some(totalDays), slotMin := Some(slots.0),
                      slotMax := Some(slots.1), skeletonWarnings := Some(AreaWarningTexts(v, warnings)));
        if DayNumbers(sortedDays) != DayRange(totalDays) {
          out := out.(error := Some(NoticeText(CoverageMismatch)));
        }
    }
  }

  // ---------------------------------------------------------------- coverage

  lemma DayNumbersAppend(a: seq<PlanDay>, b: seq<PlanDay>)
    ensures DayNumbers(a + b) == DayNumbers(a) + DayNumbers(b)
  {
    DayNumbersMembers(a);
    DayNumbersMembers(b);
    DayNumbersMembers(a + b);
    forall x ensures x in DayNumbers(a + b) <==> x in DayNumbers(a) + DayNumbers(b) {
      if x in DayNumbers(a + b) {
        var d :| d in a + b && d.dayNumber == x;
        assert d in a || d in b;
      }
    }
  }

  /** The mapped days of a segment whose plan is numbered 1..n are the trip's days of that segment. */
  lemma MapDaysNumbers(plan: seq<PlanDay>, seg: RegionRange, tripStart: int, n: int)
    requires DayNumbers(plan) == DayRange(n)
    ensures DayNumbers(MapDays(plan, seg, tripStart))
            == Interval(seg.startDate - tripStart + 1, seg.startDate - tripStart + n)
  {
    var mapped := MapDays(plan, seg, tripStart);
    var offset := seg.startDate - tripStart;
    IntervalMembers(1, n);
    IntervalMembers(offset + 1, offset + n);
    DayNumbersMembers(plan);
    DayNumbersMembers(mapped);
    forall x | x in DayNumbers(mapped) ensures x in Interval(offset + 1, offset + n) {
      var d :| d in mapped && d.dayNumber == x;
      var i :| 0 <= i < |mapped| && mapped[i] == d;
      assert plan[i].dayNumber in DayNumbers(plan);
    }
    forall x | x in Interval(offset + 1, offset + n) ensures x in DayNumbers(mapped) {
      assert x - offset in DayRange(n);
      var d :| d in plan && d.dayNumber == x - offset;
      var i :| 0 <= i < |plan| && plan[i] == d;
      assert mapped[i].dayNumber == x;
    }
  }

  lemma IntervalJoin(a: int, b: int, c: int)
    requires a - 1 <= b <= c
    ensures Interval(a, b) + Interval(b + 1, c) == Interval(a, c)
  {
    IntervalMembers(a, b);
    IntervalMembers(b + 1, c);
    IntervalMembers(a, c);
    forall n ensures n in Interval(a, b) + Interval(b + 1, c) <==> n in Interval(a, c) {
    }
  }

  /** Days numbered exactly 1..n, each with a slot count within the range. */
  predicate Covers(days: seq<PlanDay>, n: int, slotMin: int, slotMax: int)
  {
    DayNumbers(days) == Interval(1, n) && forall i :: 0 <= i < |days| ==> slotMin <= |days[i].slots| <= slotMax
  }

  /**
   * Appending the mapped days of a segment that starts on day `current` and
   * whose plan validated extends days numbered 1 up to the day before
   * `current` to days numbered 1 up to the segment's last day, keeping every
   * slot count within the range.
   */
  lemma ExtendCoverage(days: seq<PlanDay>, plan: seq<PlanDay>, seg: RegionRange, tripStart: int,
                       slotMin: int, slotMax: int, targets: seq<int>, current: int)
    requires seg.startDate == current >= tripStart
    requires |PlanErrors(plan, seg.endDate - seg.startDate + 1, slotMin, slotMax, targets)| == 0
    requires Covers(days, current - tripStart, slotMin, slotMax)
    ensures seg.endDate + 1 >= current
    ensures Covers(days + MapDays(plan, seg, tripStart), seg.endDate + 1 - tripStart, slotMin, slotMax)
  {
    var segmentDays := seg.endDate - seg.startDate + 1;
    ValidPlanIff(plan, segmentDays, slotMin, slotMax, targets);
    var mapped := MapDays(plan, seg, tripStart);
    MapDaysNumbers(plan, seg, tripStart, segmentDays);
    DayNumbersAppend(days, mapped);
    IntervalJoin(1, current - tripStart, seg.endDate - tripStart + 1);
    var more := days + mapped;
    forall i | 0 <= i < |more| ensures slotMin <= |more[i].slots| <= slotMax {
      if i >= |days| {
        assert more[i] == mapped[i - |days|];
        assert DayFits(plan[i - |days|], slotMin, slotMax, targets);
      }
    }
  }

  /**
   * One turn of the walk over a tiling: a segment whose plan validated
   * extends the covered days to its last day, and what remains of the
   * segments tiles the rest of the trip.
   */
  lemma CoverageStep(v: Variant, segs: seq<RegionRange>, tripStart: int, slotMin: int, slotMax: int,
                     plan: seq<PlanDay>, k: nat, days: seq<PlanDay>, current: int, end: int)
    requires k < |segs| && current >= tripStart && Tiles(segs[k..], current, end)
    requires var n := segs[k].endDate - segs[k].startDate + 1;
      |PlanErrors(plan, n, slotMin, slotMax, TargetsFor(v, n, slotMin, slotMax))| == 0
    requires Covers(days, current - tripStart, slotMin, slotMax)
    ensures var seg := segs[k];
      seg.endDate + 1 >= tripStart
      && ((k + 1 == |segs| && seg.endDate + 1 == end + 1) || (k + 1 < |segs| && Tiles(segs[k + 1..], seg.endDate + 1, end)))
      && Covers(days + MapDays(plan, seg, tripStart), seg.endDate + 1 - tripStart, slotMin, slotMax)
  {
    var seg := segs[k];
    var segmentDays := seg.endDate - seg.startDate + 1;
    assert segs[k..][0] == seg;
    ExtendCoverage(days, plan, seg, tripStart, slotMin, slotMax, TargetsFor(v, segmentDays, slotMin, slotMax), current);
    if k + 1 < |segs| {
      TilesCons(segs[k..], current, end);
      assert segs[k..][1..] == segs[k + 1..];
    } else {
      assert segs[k..][|segs[k..]| - 1] == seg;
    }
  }

  /**
   * Walking a tiling of [current, end] from segment k, with the days so far
   * numbered 1 up to the day before `current`, a walk in which every plan
   * validates ends with the days numbered exactly 1 up to `end`, each with
   * a slot count within the range.
   */
  lemma {:induction false} RunCoverage(v: Variant, segs: seq<RegionRange>, tripStart: int, slotMin: int, slotMax: int,
                                       steps: seq<SegmentStep>, k: nat, days: seq<PlanDay>, warnings: seq<AreaWarning>,
                                       current: int, end: int)
    requires k <= |segs| == |steps| && StepsChecked(v, segs, slotMin, slotMax, steps) && current >= tripStart
    requires (k == |segs| && current == end + 1) || (k < |segs| && Tiles(segs[k..], current, end))
    requires Covers(days, current - tripStart, slotMin, slotMax)
    ensures var r := RunFrom(segs, tripStart, steps, k, days, warnings);
      r.AllValid? ==> Covers(r.days, end + 1 - tripStart, slotMin, slotMax)
    decreases |segs| - k
  {
    if k < |segs| && steps[k].StepPlanned? && |steps[k].errors| == 0 {
      var step := steps[k];
      CoverageStep(v, segs, tripStart, slotMin, slotMax, step.plan, k, days, current, end);
      RunCoverage(v, segs, tripStart, slotMin, slotMax, steps, k + 1, days + MapDays(step.plan, segs[k], tripStart),
                  warnings + step.warnings, segs[k].endDate + 1, end);
    }
  }

  /** Sorting the days by day number keeps their numbers and their slot counts. */
  lemma SortedDays(days: seq<PlanDay>, slotMin: int, slotMax: int)
    ensures var sorted := SortBy(days, DayNumberOf);
      SortedBy(sorted, DayNumberOf) && DayNumbers(sorted) == DayNumbers(days)
      && ((forall i :: 0 <= i < |days| ==> slotMin <= |days[i].slots| <= slotMax)
          ==> forall i :: 0 <= i < |sorted| ==> slotMin <= |sorted[i].slots| <= slotMax)
  {
    var sorted := SortBy(days, DayNumberOf);
    SortBySpec(days, DayNumberOf);
    DayNumbersMembers(sorted);
    DayNumbersMembers(days);
    forall d ensures d in sorted <==> d in days {
      assert d in sorted <==> d in multiset(sorted);
      assert d in days <==> d in multiset(days);
    }
    forall x ensures x in DayNumbers(sorted) <==> x in DayNumbers(days) {
      if x in DayNumbers(sorted) {
        var d :| d in sorted && d.dayNumber == x;
        assert d in days;
      }
      if x in DayNumbers(days) {
        var d :| d in days && d.dayNumber == x;
        assert d in sorted;
      }
    }
    if forall i :: 0 <= i < |days| ==> slotMin <= |days[i].slots| <= slotMax {
      forall i | 0 <= i < |sorted| ensures slotMin <= |sorted[i].slots| <= slotMax {
        assert sorted[i] in days;
      }
    }
  }

  /**
   * A run in which every plan validated and whose days are numbered exactly
   * 1..trip_days, each with a slot count in range, leaves the error as it
   * was and stores those days sorted.
   */
  lemma AfterValidRun(state: RoadmapState, totalDays: int, slots: (int, int), run: SegmentsOutcome, v: Variant)
    requires run.AllValid? && Covers(run.days, totalDays, slots.0, slots.1)
    ensures var out := SkeletonAfterRun(state, totalDays, slots, run, v);
      out.error == state.error
      && out.tripDays == Some(totalDays) && out.slotMin == Some(slots.0) && out.slotMax == Some(slots.1)
      && out.skeletonPlan.Some? && SortedBy(out.skeletonPlan.value, DayNumberOf)
      && Covers(out.skeletonPlan.value, totalDays, slots.0, slots.1)
  {
    SortedDays(run.days, slots.0, slots.1);
  }

  /** A run that stopped at a failed call or a rejected plan sets the error. */
  lemma AfterFailedRun(state: RoadmapState, totalDays: int, slots: (int, int), run: SegmentsOutcome, v: Variant)
    requires !run.AllValid?
    ensures SkeletonAfterRun(state, totalDays, slots, run, v).error.Some?
  {
  }

  /** Segments that do not tile the trip only set the error. */
  lemma UntiledRegionsFail(v: Variant, state: RoadmapState, req: CourseRequest, reply: nat -> Option<string>,
                           readPlan: string -> Option<seq<PlanDay>>, showDate: int -> string)
    requires req.startDate <= req.endDate && !Tiles(SortBy(req.regions, StartOf), req.startDate, req.endDate)
    ensures var out := SkeletonForRequest(v, state, req, reply, readPlan, showDate);
      out == state.(error := out.error) && out.error.Some?
  {
    RegionRangesSpec(req.regions, req.startDate, req.endDate);
    if |req.regions| == 0 {
      assert SortBy(req.regions, StartOf) == [];
    }
  }

  /** Segments that tile the trip lead to the segment loop, on the sorted segments. */
  lemma TiledRegionsRun(v: Variant, state: RoadmapState, req: CourseRequest, reply: nat -> Option<string>,
                        readPlan: string -> Option<seq<PlanDay>>, showDate: int -> string)
    requires req.startDate <= req.endDate && Tiles(SortBy(req.regions, StartOf), req.startDate, req.endDate)
    ensures SkeletonForRequest(v, state, req, reply, readPlan, showDate)
      == SkeletonForSegments(v, state, req, SortBy(req.regions, StartOf), reply, readPlan)
  {
    RegionRangesSpec(req.regions, req.startDate, req.endDate);
  }

  /** Over segments that tile the trip, a run in which every plan validates covers it. */
  lemma ValidRunCovers(v: Variant, segs: seq<RegionRange>, tripStart: int, tripEnd: int, slotMin: int, slotMax: int,
                       reply: nat -> Option<string>, readPlan: string -> Option<seq<PlanDay>>)
    requires tripStart <= tripEnd && Tiles(segs, tripStart, tripEnd)
    ensures var run := RunFrom(segs, tripStart, StepsOf(v, segs, slotMin, slotMax, reply, readPlan), 0, [], []);
      run.AllValid? ==> Covers(run.days, tripEnd - tripStart + 1, slotMin, slotMax)
  {
    assert segs[0..] == segs;
    IntervalMembers(1, 0);
    var steps := StepsOf(v, segs, slotMin, slotMax, reply, readPlan);
    StepsOfChecked(v, segs, slotMin, slotMax, reply, readPlan);
    RunCoverage(v, segs, tripStart, slotMin, slotMax, steps, 0, [], [], tripStart, tripEnd);
  }

  /**
   * The segment loop over segments that tile the trip: a run in which every
   * plan validates leaves the error as it was and stores the days sorted and
   * covering the trip; any other run sets the error.
   */
  lemma TiledOutcome(v: Variant, state: RoadmapState, req: CourseRequest, segs: seq<RegionRange>,
                     reply: nat -> Option<string>, readPlan: string -> Option<seq<PlanDay>>)
    requires req.startDate <= req.endDate && Tiles(segs, req.startDate, req.endDate)
    ensures var out := SkeletonForSegments(v, state, req, segs, reply, readPlan);
      var totalDays := req.endDate - req.startDate + 1;
      var slots := SlotRange(req.pacePreference);
      var run := RunFrom(segs, req.startDate, StepsOf(v, segs, slots.0, slots.1, reply, readPlan), 0, [], []);
      (!run.AllValid? ==> out.error.Some?)
      && (run.AllValid? ==>
            out.error == state.error
            && out.tripDays == Some(totalDays) && out.slotMin == Some(slots.0) && out.slotMax == Some(slots.1)
            && out.skeletonPlan.Some? && SortedBy(out.skeletonPlan.value, DayNumberOf)
            && Covers(out.skeletonPlan.value, totalDays, slots.0, slots.1))
  {
    var totalDays := req.endDate - req.startDate + 1;
    var slots := SlotRange(req.pacePreference);
    var run := RunFrom(segs, req.startDate, StepsOf(v, segs, slots.0, slots.1, reply, readPlan), 0, [], []);
    ValidRunCovers(v, segs, req.startDate, req.endDate, slots.0, slots.1, reply, readPlan);
    if run.AllValid? {
      AfterValidRun(state, totalDays, slots, run, v);
    } else {
      AfterFailedRun(state, totalDays, slots, run, v);
    }
  }

  /**
   * `generate_skeleton` on a validated request, whose start is never after
   * its end. The trip has at least one day, so the date-range error never
   * arises. Segments that do not tile the trip only set the error. When
   * they do and every segment's plan validates, the coverage error never
   * arises either: the error is left as it was and the skeleton holds the
   * days sorted and covering the trip (numbered exactly 1..trip_days, each
   * with a slot count within the pace's range). Any other run sets the error.
   */
  lemma SkeletonOutcome(v: Variant, state: RoadmapState, req: CourseRequest, reply: nat -> Option<string>,
                        readPlan: string -> Option<seq<PlanDay>>, showDate: int -> string)
    requires req.startDate <= req.endDate
    ensures var out := SkeletonForRequest(v, state, req, reply, readPlan, showDate);
      var segs := SortBy(req.regions, StartOf);
      var totalDays := req.endDate - req.startDate + 1;
      var slots := SlotRange(req.pacePreference);
      var run := RunFrom(segs, req.startDate, StepsOf(v, segs, slots.0, slots.1, reply, readPlan), 0, [], []);
      totalDays >= 1
      && (!Tiles(segs, req.startDate, req.endDate) ==> out == state.(error := out.error) && out.error.Some?)
      && (Tiles(segs, req.startDate, req.endDate) && !run.AllValid? ==> out.error.Some?)
      && (Tiles(segs, req.startDate, req.endDate) && run.AllValid? ==>
            out.error == state.error
            && out.tripDays == Some(totalDays) && out.slotMin == Some(slots.0) && out.slotMax == Some(slots.1)
            && out.skeletonPlan.Some? && SortedBy(out.skeletonPlan.value, DayNumberOf)
            && Covers(out.skeletonPlan.value, totalDays, slots.0, slots.1))
  {
    if Tiles(SortBy(req.regions, StartOf), req.startDate, req.endDate) {
      TiledRegionsRun(v, state, req, reply, readPlan, showDate);
      TiledOutcome(v, state, req, SortBy(req.regions, StartOf), reply, readPlan);
    } else {
      UntiledRegionsFail(v, state, req, reply, readPlan, showDate);
    }
  }
}
