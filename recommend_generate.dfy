/**
 * `generate_recommendations` of the region-recommendation graph
 * (`app/graph/recommendation/nodes/recommendations.py`): the first `top_k`
 * ranked regions that meet the user's constraints (or, when none does, the
 * first `top_k` ranked regions) become the final recommendations, and the
 * model's personalised reasons replace the reasons of the regions it names.
 */
module RecommendGenerate {
  import opened Wrappers
  import opened PyList
  import PyText
  import opened RecommendGraphState

  const DefaultTopK: int := 3
  const NoRegionsError: string := "추천 가능한 여행지가 없습니다"

  /** `[r for r in ranked_regions if r["constraints_met"]]`. */
  function Met(ranked: seq<RankedRegion>): (r: seq<RankedRegion>)
    ensures |r| <= |ranked|
  {
    if |ranked| == 0 then []
    else
      var x := ranked[|ranked| - 1];
      Met(ranked[..|ranked| - 1]) + (if x.constraintsMet then [x] else [])
  }

  /**
   * The regions meeting the constraints are exactly those of the ranked
   * list that do, and there are none only when no ranked region does.
   */
  lemma {:induction false} MetSpec(ranked: seq<RankedRegion>)
    ensures forall x :: x in Met(ranked) <==> x in ranked && x.constraintsMet
    ensures |Met(ranked)| == 0 <==> forall i :: 0 <= i < |ranked| ==> !ranked[i].constraintsMet
    decreases |ranked|
  {
    if |ranked| > 0 {
      var init := ranked[..|ranked| - 1];
      MetSpec(init);
      assert ranked == init + [ranked[|ranked| - 1]];
      assert forall i :: 0 <= i < |init| ==> init[i] == ranked[i];
    }
  }

  /** `filtered`, after the fallback to the ranked list when no region meets the constraints. */
  function Selected(ranked: seq<RankedRegion>, topK: int): seq<RankedRegion>
  {
    var filtered := Take(Met(ranked), topK);
    if |filtered| == 0 && |ranked| > 0 then Take(ranked, topK) else filtered
  }

  /**
   * The selection is the first `top_k` regions meeting the constraints
   * when some do, and otherwise the first `top_k` ranked regions; with a
   * non-negative `top_k` it holds at most `top_k` regions and is empty only
   * when there is no ranked region or `top_k` is 0.
   */
  lemma SelectedSpec(ranked: seq<RankedRegion>, topK: int)
    ensures var sel := Selected(ranked, topK);
      (topK > 0 && (exists i :: 0 <= i < |ranked| && ranked[i].constraintsMet) ==>
         sel == Met(ranked)[..PyText.Min(topK, |Met(ranked)|)] && forall x :: x in sel ==> x.constraintsMet)
      && ((forall i :: 0 <= i < |ranked| ==> !ranked[i].constraintsMet) ==> sel == Take(ranked, topK))
      && (|sel| == 0 <==> |Take(ranked, topK)| == 0)
      && (topK >= 0 ==> |sel| <= topK && (|sel| == 0 <==> |ranked| == 0 || topK == 0))
  {
    MetSpec(ranked);
    var met := Met(ranked);
    if topK > 0 && |met| > 0 {
      var sel := Take(met, topK);
      forall x | x in sel ensures x.constraintsMet {
        var k :| 0 <= k < |sel| && sel[k] == x;
        assert met[k] in met;
      }
    }
  }

  /** One element of the model's parsed reply: a name and a reason, or anything lacking them. */
  datatype ReasonEntry = ReasonEntry(name: string, reason: string) | Malformed

  /** `reason_map`: of two entries with the same name the later one wins. */
  function ReasonMap(entries: seq<ReasonEntry>): map<string, string>
    requires forall i :: 0 <= i < |entries| ==> entries[i].ReasonEntry?
  {
    if |entries| == 0 then map[]
    else
      var e := entries[|entries| - 1];
      ReasonMap(entries[..|entries| - 1])[e.name := e.reason]
  }

  /** A name has a reason exactly when an entry names it, and it is the last such entry's reason. */
  lemma {:induction false} ReasonMapSpec(entries: seq<ReasonEntry>, name: string)
    requires forall i :: 0 <= i < |entries| ==> entries[i].ReasonEntry?
    ensures name in ReasonMap(entries) <==> exists i :: 0 <= i < |entries| && entries[i].name == name
    ensures name in ReasonMap(entries) ==>
      exists i :: 0 <= i < |entries| && entries[i].name == name && entries[i].reason == ReasonMap(entries)[name]
                  && (forall j :: i < j < |entries| ==> entries[j].name != name)
    decreases |entries|
  {
    if |entries| > 0 {
      var init := entries[..|entries| - 1];
      ReasonMapSpec(init, name);
      assert forall i :: 0 <= i < |init| ==> init[i] == entries[i];
    }
  }

  /** `{**region, "reason": reason_map.get(region["region_name"], region["reason"])}`. */
  function WithReason(x: RankedRegion, reasons: map<string, string>): RankedRegion
  {
    x.(reason := if x.regionName in reasons then reasons[x.regionName] else x.reason)
  }

  /** `final`: the selected regions in order, each with its reason merged. */
  function WithReasons(sel: seq<RankedRegion>, reasons: map<string, string>): (r: seq<RankedRegion>)
    ensures |r| == |sel|
  {
    if |sel| == 0 then [] else WithReasons(sel[..|sel| - 1], reasons) + [WithReason(sel[|sel| - 1], reasons)]
  }

  /**
   * The merge keeps the regions and their order and changes only reasons:
   * the reason of a region the model names is the model's, and every
   * other region keeps its own.
   */
  lemma {:induction false} WithReasonsAt(sel: seq<RankedRegion>, reasons: map<string, string>, i: nat)
    requires i < |sel|
    ensures var y := WithReasons(sel, reasons)[i];
      y.(reason := sel[i].reason) == sel[i]
      && (sel[i].regionName in reasons ==> y.reason == reasons[sel[i].regionName])
      && (sel[i].regionName !in reasons ==> y == sel[i])
    decreases |sel|
  {
    if i < |sel| - 1 {
      WithReasonsAt(sel[..|sel| - 1], reasons, i);
    }
  }

  /** The loop building `final`. */
  method MergeReasons(sel: seq<RankedRegion>, reasons: map<string, string>) returns (out: seq<RankedRegion>)
    ensures out == WithReasons(sel, reasons)
  {
    out := [];
    for i := 0 to |sel|
      invariant out == WithReasons(sel[..i], reasons)
    {
      assert sel[..i + 1][..i] == sel[..i];
      out := out + [WithReason(sel[i], reasons)];
    }
    assert sel[..|sel|] == sel;
  }

  /** The state after the node, given the model's parsed reply (None when the call or the JSON fails). */
  function Generate(s: GraphState, reply: Option<seq<ReasonEntry>>): GraphState
  {
    var sel := Selected(s.rankedRegions.GetOr([]), s.topK.GetOr(DefaultTopK));
    if |sel| == 0 then s.(finalRecommendations := Some([]), error := Some(NoRegionsError))
    else if reply.None? || exists i :: 0 <= i < |reply.value| && reply.value[i].Malformed? then
      s.(finalRecommendations := Some(sel))
    else s.(finalRecommendations := Some(WithReasons(sel, ReasonMap(reply.value))))
  }

  /** `generate_recommendations`. */
  method GenerateRecommendations(s: GraphState, reply: Option<seq<ReasonEntry>>) returns (r: GraphState)
    ensures r == Generate(s, reply)
  {
    var ranked := s.rankedRegions.GetOr([]);
    var topK := s.topK.GetOr(DefaultTopK);
    var filtered := Take(Met(ranked), topK);
    if |filtered| == 0 && |ranked| > 0 {
      filtered := Take(ranked, topK);
    }
    if |filtered| == 0 {
      return s.(finalRecommendations := Some([]), error := Some(NoRegionsError));
    }
    if reply.None? || exists i :: 0 <= i < |reply.value| && reply.value[i].Malformed? {
      return s.(finalRecommendations := Some(filtered));
    }
    var final := MergeReasons(filtered, ReasonMap(reply.value));
    r := s.(finalRecommendations := Some(final));
  }

  /**
   * With nothing to recommend the result is empty and the error is set;
   * otherwise the error is left as it was. In every case only the final
   * recommendations and the error can change.
   */
  lemma GenerateOutcome(s: GraphState, reply: Option<seq<ReasonEntry>>)
    ensures var r := Generate(s, reply);
      var ranked := s.rankedRegions.GetOr([]);
      r.(finalRecommendations := s.finalRecommendations, error := s.error) == s
      && r.finalRecommendations.Some?
      && (|Take(ranked, s.topK.GetOr(DefaultTopK))| == 0 <==> r.error == Some(NoRegionsError) && r.finalRecommendations == Some([]))
      && (|Take(ranked, s.topK.GetOr(DefaultTopK))| > 0 ==> r.error == s.error)
  {
    SelectedSpec(s.rankedRegions.GetOr([]), s.topK.GetOr(DefaultTopK));
  }

  /** When the model call or its reply fails, the selection is returned unchanged. */
  lemma GenerateFailure(s: GraphState, reply: Option<seq<ReasonEntry>>)
    requires reply.None? || exists i :: 0 <= i < |reply.value| && reply.value[i].Malformed?
    ensures Generate(s, reply).finalRecommendations
         == Some(Selected(s.rankedRegions.GetOr([]), s.topK.GetOr(DefaultTopK)))
  {
  }

  /**
   * On success the recommendations are the selected regions in order; the
   * reason of each region is the last reason the model gave for its name,
   * or the region's own reason when the model gave none.
   */
  lemma GenerateSuccess(s: GraphState, entries: seq<ReasonEntry>, i: nat)
    requires forall k :: 0 <= k < |entries| ==> entries[k].ReasonEntry?
    requires i < |Selected(s.rankedRegions.GetOr([]), s.topK.GetOr(DefaultTopK))|
    ensures var sel := Selected(s.rankedRegions.GetOr([]), s.topK.GetOr(DefaultTopK));
      var fin := Generate(s, Some(entries)).finalRecommendations.value;
      |fin| == |sel| && fin[i].(reason := sel[i].reason) == sel[i]
      && ((exists k :: 0 <= k < |entries| && entries[k].name == sel[i].regionName) ==>
            exists k :: 0 <= k < |entries| && entries[k].name == sel[i].regionName && fin[i].reason == entries[k].reason
                        && (forall j :: k < j < |entries| ==> entries[j].name != sel[i].regionName))
      && ((forall k :: 0 <= k < |entries| ==> entries[k].name != sel[i].regionName) ==> fin[i] == sel[i])
  {
    var sel := Selected(s.rankedRegions.GetOr([]), s.topK.GetOr(DefaultTopK));
    WithReasonsAt(sel, ReasonMap(entries), i);
    ReasonMapSpec(entries, sel[i].regionName);
  }
}
