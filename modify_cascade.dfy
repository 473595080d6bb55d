/**
 * The older timeline cascade of the itinerary edit graph
 * (`app/graph/modify/nodes/cascade.py`). For every day a diff key names it
 * restarts the clock at 09:00, or at the first place's own time, and walks
 * the places with an hour/minute accumulator: each place gets the current
 * time, then the clock moves on by a 90-minute stay and, when both places
 * have coordinates, the straight-line transit estimate. Once the hour
 * reaches 24 one overage warning is emitted and the rest of the day keeps
 * its old times. Unlike the policy of the chat graph there is no rounding
 * to half hours and no range check on the parsed start.
 */
module ModifyCascade {
  import opened Wrappers
  import opened PyText
  import opened PyList
  import opened Itinerary
  import opened ModifyUtils
  import opened ModifyGraphState
  import VisitTimePolicy
  import ChatCascade

  const StayMinutes: int := 90
  const WalkWarningMinutes: int := 30
  const LateHour: int := 23
  const StartHour: int := 9
  const StartMinute: int := 0
  const TransitFactor: real := 15.0
  const TransitBase: int := 10

  /** The accumulator: an hour that may run past 24 and a minute. */
  datatype Clock = Clock(hour: int, minute: int)

  function Total(c: Clock): int { c.hour * 60 + c.minute }

  // ---------------------------------------------------------------- parsing and formatting

  /**
   * `_parse_time`: the AM/PM rule on `H[:M]`, the minute 0 when absent, None
   * when the text is blank or a part is not an integer. Neither the hour nor
   * the minute is range-checked.
   */
  function ParseTime(visitTime: string): (r: Option<Clock>)
    ensures IsBlank(visitTime) ==> r.None?
  {
    var text := Upper(Strip(visitTime));
    if |text| == 0 then None
    else
      var parts := Split(VisitTimePolicy.CleanTime(text), ':');
      var hour := ParseInt(parts[0]);
      var minute := if |parts| > 1 then ParseInt(parts[1]) else Some(0);
      if hour.None? || minute.None? then None
      else Some(Clock(VisitTimePolicy.AdjustHour(hour.value, Contains(text, "PM"), Contains(text, "AM")), minute.value))
  }

  /** `_format_time`: `f"{hour:02d}:{minute:02d}"`. */
  function FormatTime(c: Clock): (r: string)
    ensures c.hour >= 0 && c.minute >= 0 ==> |r| >= 5
  {
    Pad2(c.hour) + ":" + Pad2(c.minute)
  }

  /** The text `_format_time` writes for a clock past midnight is digits around one colon. */
  lemma FormatShape(c: Clock)
    requires c.hour >= 0 && c.minute >= 0
    ensures var text := FormatTime(c);
      ':' !in Pad2(c.hour) && ':' !in Pad2(c.minute) && text == Pad2(c.hour) + [':'] + Pad2(c.minute)
      && IsDigit(text[0]) && IsDigit(text[|text| - 1]) && VisitTimePolicy.ClockChars(text)
  {
    var a, b := Pad2(c.hour), Pad2(c.minute);
    var text := FormatTime(c);
    assert text == a + [':'] + b;
    forall i | 0 <= i < |text| ensures IsDigit(text[i]) || text[i] == ':' {
      if i < |a| { assert text[i] == a[i]; } else if i > |a| { assert text[i] == b[i - |a| - 1]; }
    }
    assert text[|text| - 1] == b[|b| - 1];
  }

  /** `_parse_time` on two runs of digits around a colon reads the two integers. */
  lemma ParseJoined(a: string, b: string, hour: int, minute: int)
    requires ':' !in a && ':' !in b && ParseInt(a) == Some(hour) && ParseInt(b) == Some(minute)
    requires var text := a + [':'] + b; IsDigit(text[0]) && IsDigit(text[|text| - 1]) && VisitTimePolicy.ClockChars(text)
    ensures ParseTime(a + [':'] + b) == Some(Clock(hour, minute))
  {
    var text := a + [':'] + b;
    VisitTimePolicy.CleanClockText(text);
    SplitJoined(a, b, ':');
  }

  /** What `_format_time` writes is read back by `_parse_time` as the same clock. */
  lemma FormatParses(c: Clock)
    requires c.hour >= 0 && c.minute >= 0
    ensures ParseTime(FormatTime(c)) == Some(c)
  {
    FormatShape(c);
    ParsePad2(c.hour);
    ParsePad2(c.minute);
    ParseJoined(Pad2(c.hour), Pad2(c.minute), c.hour, c.minute);
  }

  // ---------------------------------------------------------------- one day

  /** `_calc_transit_minutes` between two places, None unless all four coordinates are present. */
  function Transit(dist: Distance, a: Place, b: Place): (r: Option<int>)
    ensures r.Some? <==> HasCoordinates(a) && HasCoordinates(b)
  {
    if HasCoordinates(a) && HasCoordinates(b) then
      Some(VisitTimePolicy.CalcTransitMinutes(dist, a.latitude.value, a.longitude.value, b.latitude.value, b.longitude.value,
                                              TransitFactor, TransitBase))
    else None
  }

  /** The transit is at least the 10-minute base, and exactly the base between two places at the same point. */
  lemma TransitBounds(dist: Distance, a: Place, b: Place)
    requires IsHaversine(dist)
    ensures Transit(dist, a, b).Some? ==> Transit(dist, a, b).value >= 10
    ensures HasCoordinates(a) && a.latitude == b.latitude && a.longitude == b.longitude ==> Transit(dist, a, b) == Some(10)
  {
    if HasCoordinates(a) && HasCoordinates(b) {
      VisitTimePolicy.TransitBounds(dist, a.latitude.value, a.longitude.value, b.latitude.value, b.longitude.value,
                                    TransitFactor, TransitBase);
    }
  }

  /** The transit after place `i`: only towards a next place. */
  function LegTransit(dist: Distance, places: seq<Place>, i: nat): (r: Option<int>)
    requires i < |places|
    ensures r.Some? ==> i + 1 < |places|
  {
    if i + 1 < |places| then Transit(dist, places[i], places[i + 1]) else None
  }

  /** Moving the clock on by some minutes, carrying whole hours out of the minute. */
  function Advance(c: Clock, minutes: int): (r: Clock)
    ensures 0 <= r.minute < 60
    ensures Total(r) == Total(c) + minutes
  {
    var m := c.minute + minutes;
    Clock(c.hour + m / 60, m % 60)
  }

  /** The clock after place `i`: the stay, then the transit to the next place when there is one. */
  function AfterPlace(dist: Distance, places: seq<Place>, i: nat, c: Clock): (r: Clock)
    requires i < |places|
    ensures 0 <= r.minute < 60
    ensures Total(r) == Total(c) + StayMinutes + LegTransit(dist, places, i).GetOr(0)
  {
    var stayed := Advance(c, StayMinutes);
    var t := LegTransit(dist, places, i);
    if t.Some? then Advance(stayed, t.value) else stayed
  }

  /** The warnings of this cascade, before they are rendered as text. */
  datatype LegacyWarning = Late(place: string, hour: int) | SlowTransit(from: string, to: string, minutes: int) | Overage

  /** What place `i` visited at `c` adds: a late warning, then a slow-transit warning. */
  function PlaceWarnings(dist: Distance, places: seq<Place>, i: nat, c: Clock): (r: seq<LegacyWarning>)
    requires i < |places|
    ensures Overage !in r
  {
    var t := LegTransit(dist, places, i);
    (if c.hour >= LateHour then [Late(places[i].placeName, c.hour)] else [])
    + (if t.Some? && t.value > WalkWarningMinutes then [SlowTransit(places[i].placeName, places[i + 1].placeName, t.value)] else [])
  }

  /** A late warning is given exactly from hour 23 on, a transit warning exactly above 30 minutes. */
  lemma PlaceWarningsSpec(dist: Distance, places: seq<Place>, i: nat, c: Clock)
    requires i < |places|
    ensures Late(places[i].placeName, c.hour) in PlaceWarnings(dist, places, i, c) <==> c.hour >= LateHour
    ensures (exists w :: w in PlaceWarnings(dist, places, i, c) && w.SlowTransit?) <==>
      LegTransit(dist, places, i).Some? && LegTransit(dist, places, i).value > WalkWarningMinutes
  {
    var t := LegTransit(dist, places, i);
    if t.Some? && t.value > WalkWarningMinutes {
      assert SlowTransit(places[i].placeName, places[i + 1].placeName, t.value) in PlaceWarnings(dist, places, i, c);
    }
  }

  /** A place with its visit time overwritten by the clock. */
  function Stamped(p: Place, c: Clock): Place { p.(visitTime := Some(FormatTime(c))) }

  /**
   * The loop from place `i` on with the clock at `c`, as the loop runs:
   * the day's list with the places before `i` already written, and the
   * list the loop leaves.
   */
  function WalkPlaces(dist: Distance, stamp: (Place, Clock) -> Place, places: seq<Place>, out: seq<Place>, i: nat, c: Clock): (r: seq<Place>)
    requires i <= |places| == |out|
    ensures |r| == |places|
    decreases |places| - i
  {
    if i == |places| then out
    else
      var written := out[i := stamp(places[i], c)];
      var next := AfterPlace(dist, places, i, c);
      if next.hour >= 24 then written else WalkPlaces(dist, stamp, places, written, i + 1, next)
  }

  /** The warnings the loop has given once it reaches place `i` with `ws`, and those it gives when it ends. */
  function WalkWarnings(dist: Distance, places: seq<Place>, ws: seq<LegacyWarning>, i: nat, c: Clock): (r: seq<LegacyWarning>)
    requires i <= |places|
    decreases |places| - i
  {
    if i == |places| then ws
    else
      var given := ws + PlaceWarnings(dist, places, i, c);
      var next := AfterPlace(dist, places, i, c);
      if next.hour >= 24 then given + [Overage] else WalkWarnings(dist, places, given, i + 1, next)
  }

  /** The clock a day starts at: the first place's parsed time, else 09:00. */
  function StartClock(places: seq<Place>): (c: Clock)
    requires |places| > 0
    ensures ParseTime(places[0].visitTime.GetOr("")).None? ==> c == Clock(StartHour, StartMinute)
    ensures ParseTime(places[0].visitTime.GetOr("")).Some? ==> c == ParseTime(places[0].visitTime.GetOr("")).value
  {
    var first := ParseTime(places[0].visitTime.GetOr(""));
    if first.Some? then first.value else Clock(StartHour, StartMinute)
  }

  /** The places of one recomputed day after the loop. */
  function DayPlaces(dist: Distance, places: seq<Place>): (r: seq<Place>)
    requires |places| > 0
  {
    WalkPlaces(dist, Stamped, places, places, 0, StartClock(places))
  }

  /** The warnings of one recomputed day. */
  function DayWarningList(dist: Distance, places: seq<Place>): (r: seq<LegacyWarning>)
    requires |places| > 0
  {
    WalkWarnings(dist, places, [], 0, StartClock(places))
  }

  /** One pass of the place loop, in terms of the two walks. */
  lemma WalkOnce(dist: Distance, places: seq<Place>, out: seq<Place>, ws: seq<LegacyWarning>, i: nat, c: Clock)
    requires i < |places| == |out|
    ensures var written := out[i := Stamped(places[i], c)]; var given := ws + PlaceWarnings(dist, places, i, c);
      var next := AfterPlace(dist, places, i, c);
      (next.hour >= 24 ==> WalkPlaces(dist, Stamped, places, out, i, c) == written && WalkWarnings(dist, places, ws, i, c) == given + [Overage])
      && (next.hour < 24 ==> WalkPlaces(dist, Stamped, places, out, i, c) == WalkPlaces(dist, Stamped, places, written, i + 1, next)
                             && WalkWarnings(dist, places, ws, i, c) == WalkWarnings(dist, places, given, i + 1, next))
  {
  }

  /** The clock the day loop starts from. */
  method FirstClock(places: seq<Place>) returns (c: Clock)
    requires |places| > 0
    ensures c == StartClock(places)
  {
    c := Clock(StartHour, StartMinute);
    var firstTime := ParseTime(places[0].visitTime.GetOr(""));
    if firstTime.Some? {
      c := firstTime.value;
    }
  }

  /** The place loop of `cascade` for one day: stamp, warn, advance, stop past midnight. */
  method WalkDay(dist: Distance, places: seq<Place>) returns (out: seq<Place>, warnings: seq<LegacyWarning>)
    requires |places| > 0
    ensures out == DayPlaces(dist, places) && warnings == DayWarningList(dist, places)
  {
    var clock := FirstClock(places);
    out := places;
    warnings := [];
    var i := 0;
    while i < |places|
      invariant 0 <= i <= |places| && |out| == |places|
      invariant WalkPlaces(dist, Stamped, places, out, i, clock) == DayPlaces(dist, places)
      invariant WalkWarnings(dist, places, warnings, i, clock) == DayWarningList(dist, places)
      decreases |places| - i
    {
      WalkOnce(dist, places, out, warnings, i, clock);
      out := out[i := Stamped(places[i], clock)];
      warnings := warnings + PlaceWarnings(dist, places, i, clock);
      var next := AfterPlace(dist, places, i, clock);
      if next.hour >= 24 {
        warnings := warnings + [Overage];
        return;
      }
      clock := next;
      i := i + 1;
    }
  }

  // ---------------------------------------------------------------- what one day's walk does

  /** The clocks at which the loop, reaching place `i` at `c`, stamps that place and the later ones. */
  function Visits(dist: Distance, places: seq<Place>, i: nat, c: Clock): (r: seq<Clock>)
    requires i <= |places|
    ensures |r| <= |places| - i
    ensures i < |places| ==> |r| >= 1 && r[0] == c
    decreases |places| - i
  {
    if i == |places| then []
    else
      var next := AfterPlace(dist, places, i, c);
      if next.hour >= 24 then [c] else [c] + Visits(dist, places, i + 1, next)
  }

  /** Whether the loop, reaching place `i` at `c`, stops on the hour reaching 24. */
  predicate Overflows(dist: Distance, places: seq<Place>, i: nat, c: Clock)
    requires i <= |places|
    decreases |places| - i
  {
    if i == |places| then false
    else
      var next := AfterPlace(dist, places, i, c);
      next.hour >= 24 || Overflows(dist, places, i + 1, next)
  }

  /** The warnings of the places `i`, `i + 1`, ... visited at the clocks `v`. */
  function VisitWarnings(dist: Distance, places: seq<Place>, i: nat, v: seq<Clock>): (r: seq<LegacyWarning>)
    requires i + |v| <= |places|
    ensures Overage !in r
    decreases |v|
  {
    if |v| == 0 then [] else PlaceWarnings(dist, places, i, v[0]) + VisitWarnings(dist, places, i + 1, v[1..])
  }

  /**
   * Consecutive visits are one stay and one transit apart, and none of the
   * clocks visited after the first has reached hour 24.
   */
  lemma {:induction false} VisitsChain(dist: Distance, places: seq<Place>, i: nat, c: Clock)
    requires i <= |places|
    ensures forall k :: 1 <= k < |Visits(dist, places, i, c)| ==>
      Visits(dist, places, i, c)[k] == AfterPlace(dist, places, i + k - 1, Visits(dist, places, i, c)[k - 1])
      && Visits(dist, places, i, c)[k].hour < 24
    decreases |places| - i
  {
    if i < |places| {
      var next := AfterPlace(dist, places, i, c);
      if next.hour < 24 {
        VisitsChain(dist, places, i + 1, next);
        var v, rest := Visits(dist, places, i, c), Visits(dist, places, i + 1, next);
        assert v == [c] + rest;
        forall k | 1 <= k < |v|
          ensures v[k] == AfterPlace(dist, places, i + k - 1, v[k - 1]) && v[k].hour < 24
        {
          assert v[k] == rest[k - 1];
          if k > 1 { assert v[k - 1] == rest[k - 2]; }
        }
      }
    }
  }

  /**
   * The visits overflow exactly when the clock after the last visited place
   * has reached hour 24.
   */
  lemma {:induction false} VisitsEnd(dist: Distance, places: seq<Place>, i: nat, c: Clock)
    requires i <= |places|
    ensures var v := Visits(dist, places, i, c);
      Overflows(dist, places, i, c) <==> |v| > 0 && AfterPlace(dist, places, i + |v| - 1, v[|v| - 1]).hour >= 24
    decreases |places| - i
  {
    if i < |places| {
      var next := AfterPlace(dist, places, i, c);
      if next.hour < 24 {
        VisitsEnd(dist, places, i + 1, next);
        var v, rest := Visits(dist, places, i, c), Visits(dist, places, i + 1, next);
        assert v == [c] + rest;
        if |rest| > 0 { assert v[|v| - 1] == rest[|rest| - 1]; }
      }
    }
  }

  /** The visits stop short of the last place only by overflowing. */
  lemma {:induction false} VisitsShort(dist: Distance, places: seq<Place>, i: nat, c: Clock)
    requires i <= |places|
    ensures i + |Visits(dist, places, i, c)| < |places| ==> Overflows(dist, places, i, c)
    decreases |places| - i
  {
    if i < |places| {
      var next := AfterPlace(dist, places, i, c);
      if next.hour < 24 {
        VisitsShort(dist, places, i + 1, next);
      }
    }
  }

  /**
   * `r` is `out` with places `i`, `i + 1`, ... stamped at the clocks `v` and
   * every later place as it was.
   */
  predicate StampedFrom(stamp: (Place, Clock) -> Place, places: seq<Place>, out: seq<Place>, i: nat, v: seq<Clock>, r: seq<Place>)
    requires i + |v| <= |places| == |out| == |r|
  {
    (forall k :: 0 <= k < i ==> r[k] == out[k])
    && (forall k :: i <= k < i + |v| ==> r[k] == stamp(places[k], v[k - i]))
    && (forall k :: i + |v| <= k < |places| ==> r[k] == places[k])
  }

  lemma {:induction false} WalkPlacesVisits(dist: Distance, stamp: (Place, Clock) -> Place, places: seq<Place>, out: seq<Place>,
                                            i: nat, c: Clock)
    requires i <= |places| == |out|
    requires forall k {:trigger out[k]} :: i <= k < |places| ==> out[k] == places[k]
    ensures StampedFrom(stamp, places, out, i, Visits(dist, places, i, c), WalkPlaces(dist, stamp, places, out, i, c))
    decreases |places| - i
  {
    if i < |places| {
      var written := out[i := stamp(places[i], c)];
      var next := AfterPlace(dist, places, i, c);
      if next.hour < 24 {
        WalkPlacesVisits(dist, stamp, places, written, i + 1, next);
        var r, r' := WalkPlaces(dist, stamp, places, out, i, c), WalkPlaces(dist, stamp, places, written, i + 1, next);
        var v, rest := Visits(dist, places, i, c), Visits(dist, places, i + 1, next);
        assert r == r';
        assert v == [c] + rest;
        forall k | 0 <= k < i ensures r[k] == out[k] { assert r'[k] == written[k]; }
        forall k | i <= k < i + |v| ensures r[k] == stamp(places[k], v[k - i]) {
          if k == i { assert r'[k] == written[k]; } else { assert r'[k] == stamp(places[k], rest[k - (i + 1)]); }
        }
        forall k | i + |v| <= k < |places| ensures r[k] == places[k] { assert r'[k] == places[k]; }
      }
    }
  }

  lemma {:induction false} WalkWarningsVisits(dist: Distance, places: seq<Place>, ws: seq<LegacyWarning>, i: nat, c: Clock)
    requires i <= |places|
    ensures WalkWarnings(dist, places, ws, i, c)
      == ws + VisitWarnings(dist, places, i, Visits(dist, places, i, c)) + (if Overflows(dist, places, i, c) then [Overage] else [])
    decreases |places| - i
  {
    if i < |places| {
      var next := AfterPlace(dist, places, i, c);
      var pw := PlaceWarnings(dist, places, i, c);
      var v := Visits(dist, places, i, c);
      if next.hour >= 24 {
        assert v == [c] && v[1..] == [];
        assert VisitWarnings(dist, places, i, v) == pw + [];
      } else {
        WalkWarningsVisits(dist, places, ws + pw, i + 1, next);
        var rest := Visits(dist, places, i + 1, next);
        assert v == [c] + rest && v[1..] == rest;
        var tail := if Overflows(dist, places, i + 1, next) then [Overage] else [];
        AppendAssoc(ws, pw, VisitWarnings(dist, places, i + 1, rest));
        AppendAssoc(ws, pw + VisitWarnings(dist, places, i + 1, rest), tail);
        AppendAssoc(ws + pw, VisitWarnings(dist, places, i + 1, rest), tail);
      }
    }
  }

  /**
   * One day's walk: the places the loop reaches get the time of the clock it
   * reaches them at, every later place keeps its old time, and nothing else of
   * a place changes. The warnings are those of the visited places in order,
   * followed by exactly one overage warning when the hour reached 24, which
   * may be after the last place.
   */
  lemma DayWalkSpec(dist: Distance, places: seq<Place>)
    requires |places| > 0
    ensures 1 <= |Visits(dist, places, 0, StartClock(places))| && Visits(dist, places, 0, StartClock(places))[0] == StartClock(places)
    ensures StampedFrom(Stamped, places, places, 0, Visits(dist, places, 0, StartClock(places)), DayPlaces(dist, places))
    ensures var start := StartClock(places);
      DayWarningList(dist, places)
      == VisitWarnings(dist, places, 0, Visits(dist, places, 0, start)) + (if Overflows(dist, places, 0, start) then [Overage] else [])
  {
    WalkPlacesVisits(dist, Stamped, places, places, 0, StartClock(places));
    WalkWarningsVisits(dist, places, [], 0, StartClock(places));
  }

  /** A visit time the walk wrote, for a clock not before midnight, is read back by `_parse_time` as that clock. */
  lemma StampsReadBack(dist: Distance, places: seq<Place>, k: nat)
    requires |places| > 0 && k < |Visits(dist, places, 0, StartClock(places))|
    requires Visits(dist, places, 0, StartClock(places))[k].hour >= 0 && Visits(dist, places, 0, StartClock(places))[k].minute >= 0
    ensures DayPlaces(dist, places)[k].visitTime.Some?
    ensures ParseTime(DayPlaces(dist, places)[k].visitTime.value) == Some(Visits(dist, places, 0, StartClock(places))[k])
  {
    DayWalkSpec(dist, places);
    FormatParses(Visits(dist, places, 0, StartClock(places))[k]);
  }

  /** An overage warning is the last warning when there is one, and there is one exactly when the loop overflows. */
  lemma OverageOnce(dist: Distance, places: seq<Place>)
    requires |places| > 0
    ensures var ws := DayWarningList(dist, places);
      (Overage in ws <==> Overflows(dist, places, 0, StartClock(places)))
      && (Overage in ws ==> ws[|ws| - 1] == Overage && Overage !in ws[..|ws| - 1])
  {
    DayWalkSpec(dist, places);
    var ws := DayWarningList(dist, places);
    var pre := VisitWarnings(dist, places, 0, Visits(dist, places, 0, StartClock(places)));
    if Overflows(dist, places, 0, StartClock(places)) {
      assert ws[..|ws| - 1] == pre;
    } else {
      assert ws == pre + [];
    }
  }

  /**
   * Between two visits the clock moves on by the 90-minute stay plus the
   * transit to the next place, its minute is below 60, and the hour is
   * still below 24; between two places with coordinates the clock moves by
   * at least 100 minutes.
   */
  lemma ClockAdvances(dist: Distance, places: seq<Place>, k: nat)
    requires |places| > 0
    requires 0 < k < |Visits(dist, places, 0, StartClock(places))|
    ensures var v := Visits(dist, places, 0, StartClock(places));
      Total(v[k]) == Total(v[k - 1]) + StayMinutes + LegTransit(dist, places, k - 1).GetOr(0)
      && 0 <= v[k].minute < 60 && v[k].hour < 24
    ensures var v := Visits(dist, places, 0, StartClock(places));
      IsHaversine(dist) && HasCoordinates(places[k - 1]) && HasCoordinates(places[k]) ==>
      Total(v[k]) >= Total(v[k - 1]) + StayMinutes + 10
  {
    VisitsChain(dist, places, 0, StartClock(places));
    if IsHaversine(dist) {
      TransitBounds(dist, places[k - 1], places[k]);
    }
  }

  // ---------------------------------------------------------------- the warnings as text

  /** The warning texts, each led by the day number. */
  function RenderWarning(dayNumber: int, w: LegacyWarning): string
  {
    match w
    case Late(name, hour) => IntText(dayNumber) + "일차 " + name + " 방문 시각이 " + IntText(hour) + "시입니다."
    case SlowTransit(a, b, minutes) =>
      IntText(dayNumber) + "일차 " + a + " → " + b + " 이동 시간이 약 " + IntText(minutes) + "분 소요됩니다. 이동 수단을 변경하시겠어요?"
    case Overage => IntText(dayNumber) + "일차 일정이 자정을 초과합니다."
  }

  function RenderWarnings(dayNumber: int, ws: seq<LegacyWarning>): (r: seq<string>)
    ensures |r| == |ws| && forall k :: 0 <= k < |ws| ==> r[k] == RenderWarning(dayNumber, ws[k])
  {
    seq(|ws|, k requires 0 <= k < |ws| => RenderWarning(dayNumber, ws[k]))
  }

  // ---------------------------------------------------------------- the day loop

  /** Only days a diff key names and that have places are walked. */
  predicate Walked(modified: set<int>, d: Day) { d.dayNumber in modified && |d.places| > 0 }

  function CascadedDay(dist: Distance, modified: set<int>, d: Day): (r: Day)
    ensures r.dayNumber == d.dayNumber && r.date == d.date && |r.places| == |d.places|
    ensures !Walked(modified, d) ==> r == d
  {
    if Walked(modified, d) then d.(places := DayPlaces(dist, d.places)) else d
  }

  function DayWarnings(dist: Distance, modified: set<int>, d: Day): (r: seq<string>)
    ensures !Walked(modified, d) ==> r == []
  {
    if Walked(modified, d) then RenderWarnings(d.dayNumber, DayWarningList(dist, d.places)) else []
  }

  function CascadedDays(dist: Distance, modified: set<int>, days: seq<Day>): (r: seq<Day>)
    ensures |r| == |days| && forall i :: 0 <= i < |days| ==> r[i] == CascadedDay(dist, modified, days[i])
  {
    seq(|days|, i requires 0 <= i < |days| => CascadedDay(dist, modified, days[i]))
  }

  /** Each walked day's warnings, in itinerary order. */
  function CascadeWarnings(dist: Distance, modified: set<int>, days: seq<Day>): seq<string>
    decreases |days|
  {
    if |days| == 0 then [] else CascadeWarnings(dist, modified, days[..|days| - 1]) + DayWarnings(dist, modified, days[|days| - 1])
  }

  lemma DayLoopStep(dist: Distance, modified: set<int>, days: seq<Day>, prior: seq<string>, out: seq<Day>,
                    warnings: seq<string>, i: nat, next: Day, dayWarnings: seq<string>)
    requires i < |days| && |out| == |days|
    requires forall k :: 0 <= k < i ==> out[k] == CascadedDay(dist, modified, days[k])
    requires forall k :: i <= k < |days| ==> out[k] == days[k]
    requires warnings == prior + CascadeWarnings(dist, modified, days[..i])
    requires next == CascadedDay(dist, modified, days[i]) && dayWarnings == DayWarnings(dist, modified, days[i])
    ensures forall k :: 0 <= k < i + 1 ==> out[i := next][k] == CascadedDay(dist, modified, days[k])
    ensures forall k :: i + 1 <= k < |days| ==> out[i := next][k] == days[k]
    ensures warnings + dayWarnings == prior + CascadeWarnings(dist, modified, days[..i + 1])
  {
    assert days[..i + 1][..i] == days[..i];
    AppendAssoc(prior, CascadeWarnings(dist, modified, days[..i]), dayWarnings);
  }

  /** One pass of the day loop. */
  method CascadeOneDay(dist: Distance, modified: set<int>, day: Day) returns (next: Day, dayWarnings: seq<string>)
    ensures next == CascadedDay(dist, modified, day) && dayWarnings == DayWarnings(dist, modified, day)
  {
    if day.dayNumber !in modified || |day.places| == 0 {
      return day, [];
    }
    var places, ws := WalkDay(dist, day.places);
    next := day.(places := places);
    dayWarnings := RenderWarnings(day.dayNumber, ws);
  }

  method CascadeLoop(dist: Distance, modified: set<int>, days: seq<Day>, prior: seq<string>) returns (out: seq<Day>, warnings: seq<string>)
    ensures out == CascadedDays(dist, modified, days)
    ensures warnings == prior + CascadeWarnings(dist, modified, days)
  {
    out := days;
    warnings := prior;
    var i := 0;
    while i < |days|
      invariant 0 <= i <= |days| && |out| == |days|
      invariant forall k :: 0 <= k < i ==> out[k] == CascadedDay(dist, modified, days[k])
      invariant forall k :: i <= k < |days| ==> out[k] == days[k]
      invariant warnings == prior + CascadeWarnings(dist, modified, days[..i])
    {
      var next, dayWarnings := CascadeOneDay(dist, modified, days[i]);
      DayLoopStep(dist, modified, days, prior, out, warnings, i, next, dayWarnings);
      out := out[i := next];
      warnings := warnings + dayWarnings;
      i := i + 1;
    }
    assert days[..i] == days;
  }

  // ---------------------------------------------------------------- the node

  /** What `cascade` returns for a state. */
  function CascadeNode(s: ModifyState, dist: Distance): (r: ModifyState)
    ensures s.modifiedItinerary.None? ==> r == s.(error := Some(ChatCascade.MissingItineraryError))
    ensures s.modifiedItinerary.Some? ==> r == s.(modifiedItinerary := r.modifiedItinerary, warnings := r.warnings)
  {
    if s.modifiedItinerary.None? then s.(error := Some(ChatCascade.MissingItineraryError))
    else
      var modified := ChatCascade.ModifiedDaysOf(s.diffKeys);
      if |modified| == 0 then s
      else
        var itinerary := s.modifiedItinerary.value;
        s.(modifiedItinerary := Some(itinerary.(days := CascadedDays(dist, modified, itinerary.days))),
           warnings := s.warnings + CascadeWarnings(dist, modified, itinerary.days))
  }

  /** `cascade`: the walk writes the new times into the itinerary it returns. */
  method Cascade(s: ModifyState, dist: Distance) returns (r: ModifyState)
    ensures r == CascadeNode(s, dist)
  {
    if s.modifiedItinerary.None? {
      return s.(error := Some(ChatCascade.MissingItineraryError));
    }
    var modified := ChatCascade.ExtractModifiedDays(s.diffKeys);
    if |modified| == 0 {
      return s;
    }
    var itinerary := s.modifiedItinerary.value;
    var days, warnings := CascadeLoop(dist, modified, itinerary.days, s.warnings);
    return s.(modifiedItinerary := Some(itinerary.(days := days)), warnings := warnings);
  }

  /** When no diff key names a day the state comes back exactly as it was. */
  lemma NoModifiedDayUnchanged(s: ModifyState, dist: Distance)
    requires s.modifiedItinerary.Some?
    requires forall k :: 0 <= k < |s.diffKeys| ==> ChatCascade.DayOfKey(s.diffKeys[k]).None?
    ensures CascadeNode(s, dist) == s
  {
    var modified := ChatCascade.ModifiedDaysOf(s.diffKeys);
    forall d ensures d !in modified {
      ChatCascade.ModifiedDaysOfSpec(s.diffKeys, d);
    }
    assert modified == {};
  }

  /**
   * With an itinerary and a named day, every day that is not walked is
   * kept, every walked day gets its walk, and the walks' warnings follow
   * the earlier ones in day order.
   */
  lemma CascadeWalksNamedDays(s: ModifyState, dist: Distance, i: nat)
    requires s.modifiedItinerary.Some? && i < |s.modifiedItinerary.value.days|
    requires |ChatCascade.ModifiedDaysOf(s.diffKeys)| > 0
    ensures var r := CascadeNode(s, dist); var d := s.modifiedItinerary.value.days[i];
      var modified := ChatCascade.ModifiedDaysOf(s.diffKeys);
      r.modifiedItinerary.Some? && |r.modifiedItinerary.value.days| == |s.modifiedItinerary.value.days|
      && (!Walked(modified, d) ==> r.modifiedItinerary.value.days[i] == d)
      && (Walked(modified, d) ==> r.modifiedItinerary.value.days[i].places == DayPlaces(dist, d.places))
      && r.warnings == s.warnings + CascadeWarnings(dist, modified, s.modifiedItinerary.value.days)
  {
  }

  /** The warnings of the day loop are the walked days' warnings concatenated in day order. */
  lemma {:induction false} CascadeWarningsAppend(dist: Distance, modified: set<int>, a: seq<Day>, b: seq<Day>)
    ensures CascadeWarnings(dist, modified, a + b) == CascadeWarnings(dist, modified, a) + CascadeWarnings(dist, modified, b)
    decreases |b|
  {
    if |b| == 0 {
      assert a + b == a;
    } else {
      var b' := b[..|b| - 1];
      var last := DayWarnings(dist, modified, b[|b| - 1]);
      assert (a + b)[..|a + b| - 1] == a + b';
      assert (a + b)[|a + b| - 1] == b[|b| - 1];
      CascadeWarningsAppend(dist, modified, a, b');
      AppendAssoc(CascadeWarnings(dist, modified, a), CascadeWarnings(dist, modified, b'), last);
    }
  }
}
