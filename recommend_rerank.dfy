/**
 * `rerank_regions` of the region-recommendation graph
 * (`app/graph/recommendation/nodes/rerank.py`): the model's evaluations of
 * the vector-search candidates are kept when they name a candidate, take
 * the candidate's id, get defaults for their missing fields, and are sorted
 * with the regions that meet the user's constraints first and then by
 * descending score. When the model call, its JSON or the sort fails, every
 * candidate is kept in its order with a fixed reason.
 */
module RecommendRerank {
  import opened Wrappers
  import opened RecommendGraphState

  /** The `score` of an evaluation: missing, a number, or a value unary minus rejects. */
  datatype JsonScore = ScoreAbsent | Score(value: real) | ScoreInvalid

  /** The `constraints_met` of an evaluation: missing, a boolean, or a value unary minus rejects. */
  datatype JsonFlag = FlagAbsent | Flag(flag: bool) | FlagInvalid

  /**
   * One element of the parsed JSON array: an object with the fields the node
   * reads (a missing field is `None` or `*Absent`), or something else, whose
   * `.get` raises.
   */
  datatype Evaluation =
    | Evaluation(name: Option<string>, score: JsonScore, reason: Option<string>, constraintsMet: JsonFlag)
    | NotAnObject

  const DefaultScore: real := 0.5
  const FallbackReason: string := "AI 추천"

  /** `evaluation.get("region_name", "")`. */
  function NameOf(e: Evaluation): string
    requires e.Evaluation?
  {
    e.name.GetOr("")
  }

  /** `region_map`: each candidate by its name; of two with the same name the later one wins. */
  function RegionMap(cs: seq<RegionCandidate>): map<string, RegionCandidate>
  {
    if |cs| == 0 then map[]
    else RegionMap(cs[..|cs| - 1])[cs[|cs| - 1].regionName := cs[|cs| - 1]]
  }

  /**
   * A name is a key of the map exactly when a candidate has it, and the
   * candidate stored under it is the last one with that name.
   */
  lemma {:induction false} RegionMapSpec(cs: seq<RegionCandidate>, name: string)
    ensures name in RegionMap(cs) <==> exists i :: 0 <= i < |cs| && cs[i].regionName == name
    ensures name in RegionMap(cs) ==>
      exists i :: 0 <= i < |cs| && cs[i] == RegionMap(cs)[name] && cs[i].regionName == name
                  && (forall j :: i < j < |cs| ==> cs[j].regionName != name)
    decreases |cs|
  {
    if |cs| > 0 {
      var init := cs[..|cs| - 1];
      RegionMapSpec(init, name);
      assert forall i :: 0 <= i < |init| ==> init[i] == cs[i];
      if cs[|cs| - 1].regionName != name && name in RegionMap(init) {
        var i :| 0 <= i < |init| && init[i] == RegionMap(init)[name] && init[i].regionName == name
          && forall j :: i < j < |init| ==> init[j].regionName != name;
        assert cs[i] == RegionMap(cs)[name];
      }
    }
  }

  /** An evaluation the loop keeps: an object naming a candidate. */
  predicate Kept(e: Evaluation, m: map<string, RegionCandidate>)
  {
    e.Evaluation? && NameOf(e) in m
  }

  /** The sort key of a kept evaluation can be computed: both fields negate. */
  predicate KeyValid(e: Evaluation)
    requires e.Evaluation?
  {
    !e.score.ScoreInvalid? && !e.constraintsMet.FlagInvalid?
  }

  /**
   * The node raises after the model replied: an element is not an object
   * (`.get` fails), or a kept element's sort key cannot be computed.
   */
  predicate Raises(evals: seq<Evaluation>, m: map<string, RegionCandidate>)
  {
    exists i :: 0 <= i < |evals| && (evals[i].NotAnObject? || (Kept(evals[i], m) && !KeyValid(evals[i])))
  }

  /** The region a kept evaluation becomes, with the defaults for missing fields. */
  function RankedOf(e: Evaluation, m: map<string, RegionCandidate>): RankedRegion
    requires Kept(e, m)
  {
    RankedRegion(
      m[NameOf(e)].regionId,
      NameOf(e),
      if e.score.Score? then e.score.value else DefaultScore,
      e.reason.GetOr(""),
      if e.constraintsMet.Flag? then e.constraintsMet.flag else true)
  }

  /** `ranked_regions` before the sort: one region per kept evaluation, in the model's order. */
  function KeptRanked(evals: seq<Evaluation>, m: map<string, RegionCandidate>): (r: seq<RankedRegion>)
    ensures |r| <= |evals|
  {
    if |evals| == 0 then []
    else
      var e := evals[|evals| - 1];
      KeptRanked(evals[..|evals| - 1], m) + (if Kept(e, m) then [RankedOf(e, m)] else [])
  }

  /**
   * Every region before the sort comes from a kept evaluation: it has that
   * evaluation's name, the id of the candidate stored under the name, and
   * the evaluation's score and flag or, in their place, 0.5 and true.
   */
  lemma {:induction false} KeptRankedFrom(evals: seq<Evaluation>, m: map<string, RegionCandidate>, k: nat)
    requires k < |KeptRanked(evals, m)|
    ensures var x := KeptRanked(evals, m)[k];
      exists i :: 0 <= i < |evals| && Kept(evals[i], m) && x.regionName == NameOf(evals[i])
        && x.regionName in m && x.regionId == m[x.regionName].regionId
        && x.score == (if evals[i].score.Score? then evals[i].score.value else DefaultScore)
        && x.constraintsMet == (if evals[i].constraintsMet.Flag? then evals[i].constraintsMet.flag else true)
    decreases |evals|
  {
    var init := evals[..|evals| - 1];
    var e := evals[|evals| - 1];
    if k < |KeptRanked(init, m)| {
      KeptRankedFrom(init, m, k);
      var i :| 0 <= i < |init| && Kept(init[i], m) && KeptRanked(init, m)[k].regionName == NameOf(init[i])
        && KeptRanked(init, m)[k].regionName in m
        && KeptRanked(init, m)[k].regionId == m[KeptRanked(init, m)[k].regionName].regionId
        && KeptRanked(init, m)[k].score == (if init[i].score.Score? then init[i].score.value else DefaultScore)
        && KeptRanked(init, m)[k].constraintsMet
           == (if init[i].constraintsMet.Flag? then init[i].constraintsMet.flag else true);
      assert init[i] == evals[i];
    } else {
      assert Kept(e, m) && KeptRanked(evals, m)[k] == RankedOf(e, m);
      var i := |evals| - 1;
      assert evals[i] == e;
    }
  }

  /** `key=lambda x: (-x["constraints_met"], -x["score"])` as an order: `a`'s key is at most `b`'s. */
  predicate KeyLe(a: RankedRegion, b: RankedRegion)
  {
    (a.constraintsMet && !b.constraintsMet) || (a.constraintsMet == b.constraintsMet && a.score >= b.score)
  }

  /** Two regions with equal sort keys. */
  predicate SameKey(a: RankedRegion, b: RankedRegion)
  {
    a.constraintsMet == b.constraintsMet && a.score == b.score
  }

  predicate SortedByKey(s: seq<RankedRegion>)
  {
    forall i, j :: 0 <= i < j < |s| ==> KeyLe(s[i], s[j])
  }

  /** Inserts `x` after every element whose key is at most its own. */
  function InsertRanked(t: seq<RankedRegion>, x: RankedRegion): (r: seq<RankedRegion>)
    ensures multiset(r) == multiset(t) + multiset{x}
  {
    if |t| == 0 || KeyLe(t[|t| - 1], x) then t + [x]
    else
      assert t == t[..|t| - 1] + [t[|t| - 1]];
      InsertRanked(t[..|t| - 1], x) + [t[|t| - 1]]
  }

  /** The stable sort of `list.sort` with that key, as an insertion sort. */
  function SortRanked(s: seq<RankedRegion>): (r: seq<RankedRegion>)
    ensures multiset(r) == multiset(s)
  {
    if |s| == 0 then []
    else
      assert s == s[..|s| - 1] + [s[|s| - 1]];
      InsertRanked(SortRanked(s[..|s| - 1]), s[|s| - 1])
  }

  lemma {:induction false} InsertRankedSorted(t: seq<RankedRegion>, x: RankedRegion)
    requires SortedByKey(t)
    ensures SortedByKey(InsertRanked(t, x))
    decreases |t|
  {
    var r := InsertRanked(t, x);
    if |t| == 0 || KeyLe(t[|t| - 1], x) {
      forall i, j | 0 <= i < j < |r| ensures KeyLe(r[i], r[j]) {
        if j == |t| && i < |t| - 1 {
          assert KeyLe(t[i], t[|t| - 1]);
        }
      }
    } else {
      var init := t[..|t| - 1];
      var last := t[|t| - 1];
      assert SortedByKey(init) by {
        forall i, j | 0 <= i < j < |init| ensures KeyLe(init[i], init[j]) {
          assert init[i] == t[i] && init[j] == t[j];
        }
      }
      InsertRankedSorted(init, x);
      var front := InsertRanked(init, x);
      forall i | 0 <= i < |front| ensures KeyLe(front[i], last) {
        assert front[i] in multiset(front);
        if front[i] != x {
          assert front[i] in multiset(init);
          var k :| 0 <= k < |init| && init[k] == front[i];
          assert t[k] == init[k];
        }
      }
      assert r == front + [last];
    }
  }

  lemma {:induction false} SortRankedSorted(s: seq<RankedRegion>)
    ensures SortedByKey(SortRanked(s))
    decreases |s|
  {
    if |s| > 0 {
      SortRankedSorted(s[..|s| - 1]);
      InsertRankedSorted(SortRanked(s[..|s| - 1]), s[|s| - 1]);
    }
  }

  /** The elements of `s` whose key equals `y`'s, in order. */
  function WithKey(s: seq<RankedRegion>, y: RankedRegion): seq<RankedRegion>
  {
    if |s| == 0 then []
    else WithKey(s[..|s| - 1], y) + (if SameKey(s[|s| - 1], y) then [s[|s| - 1]] else [])
  }

  lemma {:induction false} WithKeyAppend(a: seq<RankedRegion>, b: seq<RankedRegion>, y: RankedRegion)
    ensures WithKey(a + b, y) == WithKey(a, y) + WithKey(b, y)
    decreases |b|
  {
    if |b| == 0 {
      assert a + b == a;
    } else {
      assert (a + b)[..|a + b| - 1] == a + b[..|b| - 1];
      WithKeyAppend(a, b[..|b| - 1], y);
    }
  }

  lemma WithKeyOne(x: RankedRegion, y: RankedRegion)
    ensures WithKey([x], y) == if SameKey(x, y) then [x] else []
  {
    assert [x][..0] == [];
  }

  /** Insertion keeps the relative order of the elements with any one key. */
  lemma {:induction false} InsertRankedStable(t: seq<RankedRegion>, x: RankedRegion, y: RankedRegion)
    ensures WithKey(InsertRanked(t, x), y) == WithKey(t, y) + (if SameKey(x, y) then [x] else [])
    decreases |t|
  {
    hide WithKey, SortRanked;
    if |t| == 0 || KeyLe(t[|t| - 1], x) {
      WithKeyAppend(t, [x], y);
      WithKeyOne(x, y);
    } else {
      var init := t[..|t| - 1];
      var last := t[|t| - 1];
      assert InsertRanked(t, x) == InsertRanked(init, x) + [last];
      InsertRankedStable(init, x, y);
      WithKeyAppend(InsertRanked(init, x), [last], y);
      WithKeyOne(last, y);
      WithKeyAppend(init, [last], y);
      assert t == init + [last];
      assert !(SameKey(x, y) && SameKey(last, y));
    }
  }

  /** The sort is stable: the elements with any one key keep their relative order. */
  lemma {:induction false} SortRankedStable(s: seq<RankedRegion>, y: RankedRegion)
    ensures WithKey(SortRanked(s), y) == WithKey(s, y)
    decreases |s|
  {
    if |s| > 0 {
      SortRankedStable(s[..|s| - 1], y);
      InsertRankedStable(SortRanked(s[..|s| - 1]), s[|s| - 1], y);
    }
  }

  /** The fallback entry of a candidate. */
  function FallbackRegion(c: RegionCandidate): (r: RankedRegion)
    ensures r.regionName == c.regionName && r.regionId == c.regionId
  {
    RankedRegion(c.regionId, c.regionName, c.score, FallbackReason, true)
  }

  /** `fallback`: every candidate in order. */
  function Fallback(cs: seq<RegionCandidate>): (r: seq<RankedRegion>)
    ensures |r| == |cs|
  {
    if |cs| == 0 then [] else Fallback(cs[..|cs| - 1]) + [FallbackRegion(cs[|cs| - 1])]
  }

  lemma {:induction false} FallbackAt(cs: seq<RegionCandidate>, i: nat)
    requires i < |cs|
    ensures Fallback(cs)[i] == FallbackRegion(cs[i])
    decreases |cs|
  {
    if i < |cs| - 1 {
      FallbackAt(cs[..|cs| - 1], i);
    }
  }

  /** The `ranked_regions` the node stores, given the model's parsed reply (None when the call or the JSON fails). */
  function Rerank(cs: seq<RegionCandidate>, reply: Option<seq<Evaluation>>): seq<RankedRegion>
  {
    if |cs| == 0 then []
    else if reply.None? || Raises(reply.value, RegionMap(cs)) then Fallback(cs)
    else SortRanked(KeptRanked(reply.value, RegionMap(cs)))
  }

  /** The loop over the evaluations; `raised` says whether the node raises after the model replied. */
  method CollectRanked(evals: seq<Evaluation>, m: map<string, RegionCandidate>)
    returns (raised: bool, ranked: seq<RankedRegion>)
    ensures raised == Raises(evals, m)
    ensures !raised ==> ranked == KeptRanked(evals, m)
  {
    ranked := [];
    var badKey := false;
    var i := 0;
    while i < |evals|
      invariant 0 <= i <= |evals|
      invariant ranked == KeptRanked(evals[..i], m)
      invariant forall j :: 0 <= j < i ==> evals[j].Evaluation?
      invariant badKey <==> exists j :: 0 <= j < i && Kept(evals[j], m) && !KeyValid(evals[j])
    {
      var e := evals[i];
      if e.NotAnObject? {
        return true, ranked;
      }
      assert evals[..i + 1][..i] == evals[..i];
      if NameOf(e) in m {
        ranked := ranked + [RankedOf(e, m)];
        badKey := badKey || !KeyValid(e);
      }
      i := i + 1;
    }
    assert evals[..i] == evals;
    raised := badKey;
  }

  /** `rerank_regions`: only `ranked_regions` changes. */
  method RerankRegions(s: GraphState, reply: Option<seq<Evaluation>>) returns (r: GraphState)
    ensures r == s.(rankedRegions := Some(Rerank(s.candidates.GetOr([]), reply)))
  {
    var candidates := s.candidates.GetOr([]);
    if |candidates| == 0 {
      return s.(rankedRegions := Some([]));
    }
    var ranked: seq<RankedRegion>;
    var raised := true;
    if reply.Some? {
      raised, ranked := CollectRanked(reply.value, RegionMap(candidates));
    }
    if raised {
      ranked := Fallback(candidates);
    } else {
      ranked := SortRanked(ranked);
    }
    r := s.(rankedRegions := Some(ranked));
  }

  /** No candidates give no ranked regions, whatever the model would say. */
  lemma RerankEmpty(reply: Option<seq<Evaluation>>)
    ensures Rerank([], reply) == []
  {
  }

  /**
   * On failure the candidates come back one for one, in order, with their
   * id, name and score, the fixed reason and the constraints taken as met.
   */
  lemma RerankFailure(cs: seq<RegionCandidate>, reply: Option<seq<Evaluation>>)
    requires |cs| > 0
    requires reply.None? || Raises(reply.value, RegionMap(cs))
    ensures var r := Rerank(cs, reply);
      |r| == |cs| && forall i :: 0 <= i < |cs| ==>
        r[i] == RankedRegion(cs[i].regionId, cs[i].regionName, cs[i].score, FallbackReason, true)
  {
    forall i | 0 <= i < |cs| ensures Rerank(cs, reply)[i] == FallbackRegion(cs[i]) {
      FallbackAt(cs, i);
    }
  }

  /**
   * On success the result holds exactly the regions of the kept
   * evaluations, sorted with the met constraints first and then by
   * descending score, and regions with equal keys keep the model's order.
   */
  lemma RerankSuccess(cs: seq<RegionCandidate>, evals: seq<Evaluation>)
    requires |cs| > 0 && !Raises(evals, RegionMap(cs))
    ensures var r := Rerank(cs, Some(evals));
      var kept := KeptRanked(evals, RegionMap(cs));
      SortedByKey(r) && multiset(r) == multiset(kept)
      && forall y :: WithKey(r, y) == WithKey(kept, y)
  {
    var kept := KeptRanked(evals, RegionMap(cs));
    SortRankedSorted(kept);
    forall y ensures WithKey(SortRanked(kept), y) == WithKey(kept, y) {
      SortRankedStable(kept, y);
    }
  }

  /** Whatever the model says, every ranked region has the name and the id of a candidate. */
  lemma RerankFromCandidates(cs: seq<RegionCandidate>, reply: Option<seq<Evaluation>>, k: nat)
    requires k < |Rerank(cs, reply)|
    ensures var x := Rerank(cs, reply)[k];
      exists i :: 0 <= i < |cs| && cs[i].regionName == x.regionName && cs[i].regionId == x.regionId
  {
    var r := Rerank(cs, reply);
    var x := r[k];
    if reply.None? || Raises(reply.value, RegionMap(cs)) {
      FallbackAt(cs, k);
    } else {
      var m := RegionMap(cs);
      var kept := KeptRanked(reply.value, m);
      assert x in multiset(kept) by {
        assert x in multiset(r);
      }
      var j :| 0 <= j < |kept| && kept[j] == x;
      KeptRankedFrom(reply.value, m, j);
      RegionMapSpec(cs, x.regionName);
    }
  }
}
