/**
 * Helpers shared by both edit graphs (`app/graph/modify/utils.py`): the
 * great-circle distance, dense renumbering of a day's visits and the
 * `day{N}_place{M}` keys that name an edited slot.
 */
module ModifyUtils {
  import opened Wrappers
  import opened PyText
  import opened PyList
  import opened Itinerary

  /** A distance function over (lat1, lon1, lat2, lon2), in kilometres. */
  type Distance = (real, real, real, real) -> real

  /**
   * What the model relies on of `haversine_distance`: a point is at distance
   * zero from itself and no distance is negative. The trigonometry itself is
   * not modelled.
   */
  ghost predicate IsHaversine(dist: Distance)
  {
    (forall lat, lon :: dist(lat, lon, lat, lon) == 0.0)
    && (forall lat1, lon1, lat2, lon2 :: dist(lat1, lon1, lat2, lon2) >= 0.0)
  }

  /** The places with `visit_sequence` set to 1, 2, ... in list order. */
  function Renumbered(ps: seq<Place>): seq<Place>
  {
    seq(|ps|, i requires 0 <= i < |ps| => ps[i].(visitSequence := Some(i + 1)))
  }

  /** `reorder_visit_sequence`: writes position + 1 into every place, changing nothing else. */
  method ReorderVisitSequence(places: seq<Place>) returns (r: seq<Place>)
    ensures |r| == |places|
    ensures forall i :: 0 <= i < |r| ==> r[i].visitSequence == Some(i + 1)
    ensures forall i :: 0 <= i < |r| ==> r[i] == places[i].(visitSequence := r[i].visitSequence)
    ensures r == Renumbered(places)
  {
    r := places;
    var index := 0;
    while index < |r|
      invariant 0 <= index <= |r| == |places|
      invariant forall i :: 0 <= i < index ==> r[i] == places[i].(visitSequence := Some(i + 1))
      invariant forall i :: index <= i < |r| ==> r[i] == places[i]
    {
      r := r[index := r[index].(visitSequence := Some(index + 1))];
      index := index + 1;
    }
  }

  /** A place up to its `visit_sequence`. */
  function Unnumbered(p: Place): Place { p.(visitSequence := None) }

  /** The places of a day ignoring their `visit_sequence`. */
  function Visits(ps: seq<Place>): (r: seq<Place>)
    ensures |r| == |ps|
  {
    seq(|ps|, i requires 0 <= i < |ps| => Unnumbered(ps[i]))
  }

  /** `visit_sequence` is 1, 2, ..., N in list order. */
  predicate Dense(ps: seq<Place>)
  {
    forall i :: 0 <= i < |ps| ==> ps[i].visitSequence == Some(i + 1)
  }

  /** Renumbering makes the numbering dense and changes nothing else. */
  lemma RenumberedVisits(ps: seq<Place>)
    ensures Dense(Renumbered(ps)) && Visits(Renumbered(ps)) == Visits(ps)
  {
    var r := Renumbered(ps);
    assert forall i :: 0 <= i < |ps| ==> Visits(r)[i] == Unnumbered(r[i]) == Unnumbered(ps[i]) == Visits(ps)[i];
  }

  /** Inserting a place inserts it among the visits. */
  lemma VisitsInsert(ps: seq<Place>, i: nat, x: Place)
    requires i <= |ps|
    ensures Visits(Insert(ps, i, x)) == Insert(Visits(ps), i, Unnumbered(x))
  {
    var a := Visits(Insert(ps, i, x));
    var b := Insert(Visits(ps), i, Unnumbered(x));
    assert forall k :: 0 <= k < |a| ==> a[k] == b[k];
  }

  /** Popping a place pops it from the visits. */
  lemma VisitsRemoveAt(ps: seq<Place>, i: nat)
    requires i < |ps|
    ensures Visits(RemoveAt(ps, i)) == RemoveAt(Visits(ps), i)
  {
    var a := Visits(RemoveAt(ps, i));
    var b := RemoveAt(Visits(ps), i);
    assert forall k :: 0 <= k < |a| ==> a[k] == b[k];
  }

  /** Renumbering twice is renumbering once. */
  lemma {:induction false} RenumberedIdempotent(ps: seq<Place>)
    ensures Renumbered(Renumbered(ps)) == Renumbered(ps)
  {
  }

  /** Renumbering commutes with removing a place: the others keep their order. */
  lemma {:induction false} RenumberedRemove(ps: seq<Place>, k: nat)
    requires k < |ps|
    ensures |Renumbered(ps[..k] + ps[k + 1..])| == |ps| - 1
    ensures forall i :: 0 <= i < |ps| - 1 ==>
      Renumbered(ps[..k] + ps[k + 1..])[i] == (if i < k then ps[i] else ps[i + 1]).(visitSequence := Some(i + 1))
  {
  }

  /** `build_diff_key(day, seq)`: `"day{day}_place{seq}"`. */
  function BuildDiffKey(dayNumber: int, visitSequence: int): string
  {
    "day" + IntText(dayNumber) + "_place" + IntText(visitSequence)
  }

  /** A diff key starts with "day" and splits at `_` into its day part and its place part. */
  lemma DiffKeyParts(dayNumber: int, visitSequence: int)
    ensures StartsWith(BuildDiffKey(dayNumber, visitSequence), "day")
    ensures Split(BuildDiffKey(dayNumber, visitSequence), '_') == ["day" + IntText(dayNumber), "place" + IntText(visitSequence)]
  {
    DiffKeyShape(dayNumber, visitSequence);
  }

  lemma {:induction false} DiffKeyShape(d: int, m: int)
    ensures Split("day" + IntText(d) + "_place" + IntText(m), '_') == ["day" + IntText(d), "place" + IntText(m)]
  {
    var a := "day" + IntText(d);
    var b := "place" + IntText(m);
    IntTextNoUnderscore(d);
    IntTextNoUnderscore(m);
    assert '_' !in a && '_' !in b;
    assert "day" + IntText(d) + "_place" + IntText(m) == a + ['_'] + b;
    SplitJoined(a, b, '_');
  }

  /** A day's places with `x` inserted at slot `p`, renumbered. */
  function WithInserted(places: seq<Place>, p: nat, x: Place): seq<Place>
    requires p <= |places|
  {
    Renumbered(Insert(places, p, x))
  }

  /** A day's places with the one at `pos` taken out and re-inserted at slot `p` of the rest, renumbered. */
  function WithMoved(places: seq<Place>, pos: nat, p: nat): seq<Place>
    requires pos < |places| && p <= |places| - 1
  {
    Renumbered(Insert(RemoveAt(places, pos), p, places[pos]))
  }

  /** `after` is `before` with `x` inserted at `p`, renumbered. */
  predicate InsertedAt(before: seq<Place>, after: seq<Place>, p: nat, x: Place)
  {
    |after| == |before| + 1 && p < |after| && Dense(after) && Unnumbered(after[p]) == Unnumbered(x)
    && Visits(RemoveAt(after, p)) == Visits(before)
  }

  /** `after` holds the places of `before`, with the one at `pos` moved to `p`, renumbered. */
  predicate MovedTo(before: seq<Place>, after: seq<Place>, pos: nat, p: nat)
  {
    |after| == |before| && pos < |before| && p < |after| && Dense(after)
    && Unnumbered(after[p]) == Unnumbered(before[pos])
    && Visits(RemoveAt(after, p)) == Visits(RemoveAt(before, pos))
  }

  /** Inserting a place and renumbering: the day grows by one, the new place sits at `p`, the others keep their order. */
  lemma InsertedPlaces(before: seq<Place>, p: nat, x: Place)
    requires p <= |before|
    ensures InsertedAt(before, WithInserted(before, p, x), p, x)
  {
    var inserted := Insert(before, p, x);
    var after := Renumbered(inserted);
    RenumberedVisits(inserted);
    VisitsInsert(before, p, x);
    VisitsRemoveAt(after, p);
    RemoveInsert(Visits(before), p, Unnumbered(x));
    assert Visits(after)[p] == Unnumbered(after[p]);
  }

  /** Taking place `pos` out and inserting it at `p`: the moved one at `p`, the others in order. */
  lemma MovedPlaces(before: seq<Place>, pos: nat, p: nat)
    requires pos < |before| && p <= |before| - 1
    ensures MovedTo(before, WithMoved(before, pos, p), pos, p)
  {
    InsertedPlaces(RemoveAt(before, pos), p, before[pos]);
  }

  /** A move keeps the day's places: the visits before and after are permutations of each other. */
  lemma MovedIsPermutation(before: seq<Place>, after: seq<Place>, pos: nat, p: nat)
    requires MovedTo(before, after, pos, p)
    ensures multiset(Visits(after)) == multiset(Visits(before))
  {
    var va := Visits(after);
    var vb := Visits(before);
    VisitsRemoveAt(after, p);
    VisitsRemoveAt(before, pos);
    RemoveAtMultiset(va, p);
    RemoveAtMultiset(vb, pos);
    assert va[p] == vb[pos];
    calc {
      multiset(va);
      multiset(RemoveAt(va, p)) + multiset{va[p]};
      multiset(RemoveAt(vb, pos)) + multiset{vb[pos]};
      multiset(vb);
    }
  }
}
