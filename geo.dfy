/**
 * The latitude/longitude rectangle used to keep place searches near a day's
 * existing visits (`app/core/geo.py`): construction normalises the corner
 * order, clamps to the globe and widens a degenerate span, containment is
 * inclusive, and a rectangle can be grown from a set of points by a margin in
 * kilometres. Coordinates are `real`; `math.cos` is a parameter.
 */
module Geo {
  import opened Wrappers

  const MinLat: real := -90.0
  const MaxLat: real := 90.0
  const MinLng: real := -180.0
  const MaxLng: real := 180.0
  const KmPerLatDegree: real := 110.574
  const KmPerLngDegreeEquator: real := 111.320
  const Epsilon: real := 0.000001
  /** The bound on the centre latitude before its cosine is taken. */
  const CenterLatLimit: real := 89.999999
  /** `math.isclose`'s default relative tolerance (its absolute tolerance is 0). */
  const RelTol: real := 0.000000001

  function RMin(a: real, b: real): real { if a <= b then a else b }
  function RMax(a: real, b: real): real { if a >= b then a else b }
  function RAbs(a: real): real { if a < 0.0 then -a else a }

  /** `_clamp(value, lo, hi)`: `max(lo, min(hi, value))`. */
  function Clamp(v: real, lo: real, hi: real): (r: real)
    requires lo <= hi
    ensures lo <= r <= hi
    ensures lo <= v <= hi ==> r == v
    ensures v < lo ==> r == lo
    ensures v > hi ==> r == hi
  {
    RMax(lo, RMin(hi, v))
  }

  /** Clamping keeps the order of its arguments. */
  lemma ClampMonotone(a: real, b: real, lo: real, hi: real)
    requires lo <= hi && a <= b
    ensures Clamp(a, lo, hi) <= Clamp(b, lo, hi)
  {
  }

  /** `math.isclose(a, b)` with the default tolerances. */
  predicate IsClose(a: real, b: real)
  {
    RAbs(a - b) <= RelTol * RMax(RAbs(a), RAbs(b))
  }

  /**
   * One axis of `__post_init__`: sort the two bounds, clamp both to
   * `[lo, hi]`, and when the clamped bounds are close widen each by
   * `Epsilon` and clamp again.
   */
  function NormaliseAxis(a: real, b: real, lo: real, hi: real): (r: (real, real))
    requires lo < hi
    ensures lo <= r.0 <= r.1 <= hi
    ensures lo <= a <= hi && lo <= b <= hi && !IsClose(a, b) ==> r == (RMin(a, b), RMax(a, b))
    ensures lo <= a <= hi && a == b ==> r == (Clamp(a - Epsilon, lo, hi), Clamp(a + Epsilon, lo, hi))
  {
    var low := Clamp(RMin(a, b), lo, hi);
    var high := Clamp(RMax(a, b), lo, hi);
    if IsClose(low, high) then (Clamp(low - Epsilon, lo, hi), Clamp(high + Epsilon, lo, hi))
    else (low, high)
  }

  /** The order in which the two bounds are given does not matter. */
  lemma NormaliseAxisSymmetric(a: real, b: real, lo: real, hi: real)
    requires lo < hi
    ensures NormaliseAxis(a, b, lo, hi) == NormaliseAxis(b, a, lo, hi)
  {
    assert RMin(a, b) == RMin(b, a) && RMax(a, b) == RMax(b, a);
  }

  /** Every in-range value between the two given bounds lies inside the normalised span. */
  lemma NormaliseAxisCovers(a: real, b: real, lo: real, hi: real, x: real)
    requires lo < hi && lo <= x <= hi
    requires RMin(a, b) <= x <= RMax(a, b)
    ensures NormaliseAxis(a, b, lo, hi).0 <= x <= NormaliseAxis(a, b, lo, hi).1
  {
    var low := Clamp(RMin(a, b), lo, hi);
    var high := Clamp(RMax(a, b), lo, hi);
    ClampMonotone(RMin(a, b), x, lo, hi);
    ClampMonotone(x, RMax(a, b), lo, hi);
    assert low <= x <= high;
    if IsClose(low, high) {
      ClampMonotone(low - Epsilon, x, lo, hi);
      ClampMonotone(x, high + Epsilon, lo, hi);
    }
  }

  /** A `GeoRectangle` after `__post_init__`. */
  datatype Rect = Rect(minLat: real, minLng: real, maxLat: real, maxLng: real)
  {
    /** `contains`: inclusive on all four edges. */
    predicate Contains(lat: real, lng: real)
    {
      minLat <= lat <= maxLat && minLng <= lng <= maxLng
    }
  }

  /** What construction guarantees: ordered corners inside the globe's bounds. */
  predicate Normal(r: Rect)
  {
    MinLat <= r.minLat <= r.maxLat <= MaxLat && MinLng <= r.minLng <= r.maxLng <= MaxLng
  }

  /** `GeoRectangle(min_lat, min_lng, max_lat, max_lng)` with its normalisation. */
  function NewRect(minLat: real, minLng: real, maxLat: real, maxLng: real): (r: Rect)
    ensures Normal(r)
    ensures (r.minLat, r.maxLat) == NormaliseAxis(minLat, maxLat, MinLat, MaxLat)
    ensures (r.minLng, r.maxLng) == NormaliseAxis(minLng, maxLng, MinLng, MaxLng)
  {
    var lat := NormaliseAxis(minLat, maxLat, MinLat, MaxLat);
    var lng := NormaliseAxis(minLng, maxLng, MinLng, MaxLng);
    Rect(lat.0, lng.0, lat.1, lng.1)
  }

  /** Swapping the corners gives the same rectangle. */
  lemma NewRectSymmetric(minLat: real, minLng: real, maxLat: real, maxLng: real)
    ensures NewRect(minLat, minLng, maxLat, maxLng) == NewRect(maxLat, maxLng, minLat, minLng)
  {
    NormaliseAxisSymmetric(minLat, maxLat, MinLat, MaxLat);
    NormaliseAxisSymmetric(minLng, maxLng, MinLng, MaxLng);
  }

  /** A point rectangle is widened by `Epsilon` on every side, then clamped. */
  lemma NewRectPoint(lat: real, lng: real)
    requires MinLat <= lat <= MaxLat && MinLng <= lng <= MaxLng
    ensures NewRect(lat, lng, lat, lng) == Rect(
      Clamp(lat - Epsilon, MinLat, MaxLat), Clamp(lng - Epsilon, MinLng, MaxLng),
      Clamp(lat + Epsilon, MinLat, MaxLat), Clamp(lng + Epsilon, MinLng, MaxLng))
  {
  }

  /** The four corners of a normal rectangle are inside it. */
  lemma ContainsCorners(r: Rect)
    requires Normal(r)
    ensures r.Contains(r.minLat, r.minLng) && r.Contains(r.minLat, r.maxLng)
    ensures r.Contains(r.maxLat, r.minLng) && r.Contains(r.maxLat, r.maxLng)
  {
  }

  datatype LatLng = LatLng(latitude: real, longitude: real)

  /** The `locationRestriction.rectangle` payload of the Places API. */
  datatype RestrictionPayload = RestrictionPayload(low: LatLng, high: LatLng)

  /** `to_google_location_restriction_payload`: the payload describes the same box. */
  function ToRestrictionPayload(r: Rect): (p: RestrictionPayload)
    ensures Normal(r) ==> p.low.latitude <= p.high.latitude && p.low.longitude <= p.high.longitude
    ensures forall lat, lng :: r.Contains(lat, lng) <==>
      p.low.latitude <= lat <= p.high.latitude && p.low.longitude <= lng <= p.high.longitude
  {
    RestrictionPayload(LatLng(r.minLat, r.minLng), LatLng(r.maxLat, r.maxLng))
  }

  /** The smallest element of a non-empty sequence. */
  function MinOf(xs: seq<real>): (r: real)
    requires |xs| > 0
    ensures r in xs && forall i :: 0 <= i < |xs| ==> r <= xs[i]
  {
    if |xs| == 1 then xs[0] else RMin(xs[0], MinOf(xs[1..]))
  }

  /** The largest element of a non-empty sequence. */
  function MaxOf(xs: seq<real>): (r: real)
    requires |xs| > 0
    ensures r in xs && forall i :: 0 <= i < |xs| ==> xs[i] <= r
  {
    if |xs| == 1 then xs[0] else RMax(xs[0], MaxOf(xs[1..]))
  }

  function Lats(points: seq<(real, real)>): (r: seq<real>)
    ensures |r| == |points| && forall i :: 0 <= i < |points| ==> r[i] == points[i].0
  {
    seq(|points|, i requires 0 <= i < |points| => points[i].0)
  }

  function Lngs(points: seq<(real, real)>): (r: seq<real>)
    ensures |r| == |points| && forall i :: 0 <= i < |points| ==> r[i] == points[i].1
  {
    seq(|points|, i requires 0 <= i < |points| => points[i].1)
  }

  /** `math.cos(math.radians(x))`, supplied by the caller. */
  type CosDegrees = real -> real

  /** The longitude margin's cosine factor, never below `Epsilon`. */
  function CosLat(centerLat: real, cosDeg: CosDegrees): (c: real)
    ensures c >= Epsilon
  {
    RMax(RAbs(cosDeg(centerLat)), Epsilon)
  }

  /** The latitude margin in degrees; a negative margin counts as zero. */
  function LatMarginDeg(marginKm: real): (d: real)
    ensures d >= 0.0
    ensures marginKm <= 0.0 ==> d == 0.0
  {
    RMax(0.0, marginKm) / KmPerLatDegree
  }

  /** The longitude margin in degrees at latitude cosine `cosLat`. */
  function LngMarginDeg(marginKm: real, cosLat: real): (d: real)
    requires cosLat >= Epsilon
    ensures d >= 0.0
    ensures marginKm <= 0.0 ==> d == 0.0
  {
    var margin := RMax(0.0, marginKm);
    assert KmPerLngDegreeEquator * cosLat > 0.0;
    margin / (KmPerLngDegreeEquator * cosLat)
  }

  /**
   * `from_points_with_margin_km`: None for no points; otherwise the points'
   * bounding box grown by the margin (converted to degrees at the clamped
   * centre latitude) and normalised.
   */
  function FromPointsWithMarginKm(points: seq<(real, real)>, marginKm: real, cosDeg: CosDegrees): (r: Option<Rect>)
    ensures r.None? <==> |points| == 0
    ensures r.Some? ==> Normal(r.value)
  {
    if |points| == 0 then None
    else
      var lats := Lats(points);
      var lngs := Lngs(points);
      var latMargin := LatMarginDeg(marginKm);
      var centerLat := Clamp((MinOf(lats) + MaxOf(lats)) / 2.0, -CenterLatLimit, CenterLatLimit);
      var lngMargin := LngMarginDeg(marginKm, CosLat(centerLat, cosDeg));
      Some(NewRect(MinOf(lats) - latMargin, MinOf(lngs) - lngMargin, MaxOf(lats) + latMargin, MaxOf(lngs) + lngMargin))
  }

  /** A point on the globe. */
  predicate ValidPoint(p: (real, real))
  {
    MinLat <= p.0 <= MaxLat && MinLng <= p.1 <= MaxLng
  }

  /** Every valid input point lies in the rectangle built from the points. */
  lemma FromPointsContains(points: seq<(real, real)>, marginKm: real, cosDeg: CosDegrees, i: nat)
    requires i < |points| && ValidPoint(points[i])
    ensures var r := FromPointsWithMarginKm(points, marginKm, cosDeg);
      r.Some? && r.value.Contains(points[i].0, points[i].1)
  {
    var lats := Lats(points);
    var lngs := Lngs(points);
    var latMargin := LatMarginDeg(marginKm);
    var centerLat := Clamp((MinOf(lats) + MaxOf(lats)) / 2.0, -CenterLatLimit, CenterLatLimit);
    var lngMargin := LngMarginDeg(marginKm, CosLat(centerLat, cosDeg));
    var a, b := MinOf(lats) - latMargin, MaxOf(lats) + latMargin;
    var c, d := MinOf(lngs) - lngMargin, MaxOf(lngs) + lngMargin;
    assert lats[i] == points[i].0 && lngs[i] == points[i].1;
    NormaliseAxisCovers(a, b, MinLat, MaxLat, points[i].0);
    NormaliseAxisCovers(c, d, MinLng, MaxLng, points[i].1);
  }

  /** A negative margin builds the same rectangle as no margin. */
  lemma NegativeMarginIsZero(points: seq<(real, real)>, marginKm: real, cosDeg: CosDegrees)
    requires marginKm < 0.0
    ensures FromPointsWithMarginKm(points, marginKm, cosDeg) == FromPointsWithMarginKm(points, 0.0, cosDeg)
  {
  }
}
