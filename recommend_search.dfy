/**
 * `search_regions` of the region-recommendation graph: the regions nearest
 * to the query's embedding become candidates, scored by their rank. The
 * older node of `app/graph/nodes.py` scores rank `i` with `1.0 - 0.05 * i`;
 * the current one of `app/graph/recommendation/nodes/search.py` clamps that
 * at 0. The embedding service and the database are not part of this model:
 * whether an embedding was produced and the rows of the nearest-neighbour
 * query, nearest first, are inputs.
 */
module RecommendSearch {
  import opened Wrappers
  import opened RecommendGraphState
  import RecommendTransform

  const DefaultTopK: int := 10
  const EmbeddingError: string := "임베딩 생성 실패"

  /** A region with an embedding, as the query returns it. */
  datatype RegionRow = RegionRow(regionId: Option<string>, regionName: string)

  /** The score of the region at rank `i` in the older node, `1.0 - i * 0.05`. */
  function LegacyScore(i: nat): real
  {
    1.0 - (i as real) * 0.05
  }

  /** The score of the region at rank `i` in the current node, `max(0.0, 1.0 - i * 0.05)`. */
  function ClampedScore(i: nat): real
  {
    if LegacyScore(i) < 0.0 then 0.0 else LegacyScore(i)
  }

  function ScoreAt(v: RecommendTransform.Variant, i: nat): real
  {
    if v.Legacy? then LegacyScore(i) else ClampedScore(i)
  }

  /** The candidates for the rows, each with its rank's score. */
  function Candidates(v: RecommendTransform.Variant, rows: seq<RegionRow>): (r: seq<RegionCandidate>)
    ensures |r| == |rows|
  {
    if |rows| == 0 then []
    else Candidates(v, rows[..|rows| - 1])
         + [RegionCandidate(rows[|rows| - 1].regionId, rows[|rows| - 1].regionName, ScoreAt(v, |rows| - 1))]
  }

  lemma {:induction false} CandidatesAt(v: RecommendTransform.Variant, rows: seq<RegionRow>, i: nat)
    requires i < |rows|
    ensures Candidates(v, rows)[i] == RegionCandidate(rows[i].regionId, rows[i].regionName, ScoreAt(v, i))
    decreases |rows|
  {
    if i < |rows| - 1 {
      CandidatesAt(v, rows[..|rows| - 1], i);
    }
  }

  /** `.limit(top_k)` on the rows, nearest first. */
  function Limit(rows: seq<RegionRow>, topK: nat): (r: seq<RegionRow>)
  {
    if topK < |rows| then rows[..topK] else rows
  }

  /**
   * The state after the node. A negative `top_k` makes the database
   * reject the query, which the node does not catch, so it is excluded.
   */
  function SearchRegions(v: RecommendTransform.Variant, s: GraphState, embedded: bool, rows: seq<RegionRow>): GraphState
    requires s.topK.GetOr(DefaultTopK) >= 0
  {
    if !embedded then s.(error := Some(EmbeddingError), candidates := Some([]))
    else s.(candidates := Some(Candidates(v, Limit(rows, s.topK.GetOr(DefaultTopK)))))
  }

  /**
   * Without an embedding the candidates are empty and the error is set.
   * Otherwise there is one candidate per row up to `top_k`, with that row's
   * id and name in the rows' order, the first scored 1, and nothing else
   * changes.
   */
  lemma SearchOutcome(v: RecommendTransform.Variant, s: GraphState, embedded: bool, rows: seq<RegionRow>)
    requires s.topK.GetOr(DefaultTopK) >= 0
    ensures var r := SearchRegions(v, s, embedded, rows);
      var topK := s.topK.GetOr(DefaultTopK);
      r.candidates.Some?
      && (!embedded ==> r.candidates == Some([]) && r.error == Some(EmbeddingError))
      && (embedded ==>
            r.error == s.error
            && |r.candidates.value| == (if topK < |rows| then topK else |rows|)
            && (forall i :: 0 <= i < |r.candidates.value| ==>
                  r.candidates.value[i].regionId == rows[i].regionId
                  && r.candidates.value[i].regionName == rows[i].regionName)
            && (|r.candidates.value| > 0 ==> r.candidates.value[0].score == 1.0))
      && r.(candidates := s.candidates, error := s.error) == s
  {
    var r := SearchRegions(v, s, embedded, rows);
    if embedded {
      var limited := Limit(rows, s.topK.GetOr(DefaultTopK));
      forall i | 0 <= i < |r.candidates.value|
        ensures r.candidates.value[i].regionId == rows[i].regionId
             && r.candidates.value[i].regionName == rows[i].regionName
      {
        CandidatesAt(v, limited, i);
      }
      if |limited| > 0 {
        CandidatesAt(v, limited, 0);
      }
    }
  }

  /**
   * The older node's scores fall strictly with the rank, by 0.05 a step;
   * the current node's never rise, stay within [0, 1], equal the older ones
   * down to rank 20 and are 0 below it.
   */
  lemma ScoresByRank(i: nat, j: nat)
    requires i < j
    ensures LegacyScore(i) > LegacyScore(j) && LegacyScore(i) - LegacyScore(i + 1) == 0.05
    ensures ClampedScore(i) >= ClampedScore(j)
    ensures 0.0 <= ClampedScore(i) <= 1.0
    ensures i <= 20 ==> ClampedScore(i) == LegacyScore(i)
    ensures i > 20 ==> ClampedScore(i) == 0.0
  {
  }

  /** The older node gives a negative score from rank 21 on, which the current node clamps to 0. */
  lemma LegacyScoreNegative()
    ensures LegacyScore(21) < 0.0
    ensures ClampedScore(21) == 0.0
  {
  }

  /** In both nodes the candidates' scores never rise along the list, and in the older one they fall. */
  lemma CandidateScoresFall(v: RecommendTransform.Variant, rows: seq<RegionRow>, i: nat, j: nat)
    requires i < j < |rows|
    ensures var c := Candidates(v, rows);
      c[i].score >= c[j].score && (v.Legacy? ==> c[i].score > c[j].score)
  {
    CandidatesAt(v, rows, i);
    CandidatesAt(v, rows, j);
    ScoresByRank(i, j);
  }
}
