/**
 * `transform_input` of the region-recommendation graph, in its current form
 * (`app/graph/recommendation/nodes/transform.py`) and in the older one of
 * `app/graph/nodes.py`: the user's preference codes become a search query.
 * Each present field adds one part, in the fixed order interests,
 * environment, weather, travel range; a known code is replaced by its
 * Korean label and an unknown one is kept. The two versions differ in two
 * interest labels and in the query used when no field is present.
 */
module RecommendTransform {
  import opened Wrappers
  import opened PyText
  import opened RecommendGraphState

  /** The node of `recommendation/nodes/transform.py`, or the older one of `app/graph/nodes.py`. */
  datatype Variant = Current | Legacy

  /** `interest_map`. */
  function InterestLabels(v: Variant): map<string, string>
  {
    map["HISTORY" := "역사와 문화 유적", "NATURE" := "자연 경관",
        "FOOD" := if v == Current then "맛집과 미식 문화" else "맛집과 음식 문화",
        "SHOPPING" := "쇼핑",
        "ACTIVITY" := if v == Current then "액티비티와 체험" else "액티비티와 모험",
        "RELAXATION" := "휴양과 힐링"]
  }

  /** `env_map`. */
  const EnvironmentLabels: map<string, string> :=
    map["URBAN" := "도시적인 분위기", "NATURE" := "자연 친화적인 환경",
        "COASTAL" := "해안가와 바다", "MOUNTAIN" := "산악 지역"]

  /** `weather_map`. */
  const WeatherLabels: map<string, string> :=
    map["WARM" := "따뜻한 날씨", "COOL" := "시원한 날씨", "TROPICAL" := "열대 기후"]

  /** `range_map`. */
  const RangeLabels: map<string, string> :=
    map["DOMESTIC" := "국내 여행", "NEAR_ASIA" := "가까운 아시아 국가", "SOUTHEAST_ASIA" := "동남아시아",
        "EUROPE" := "유럽", "LONG_HAUL" := "장거리 여행"]

  const QueryPrefix: string := "여행지 추천: "
  const InterestsPrefix: string := "관심사: "
  const PartSeparator: string := ", "

  /** The query used when no field is present. */
  function DefaultQuery(v: Variant): string
  {
    if v == Current then "매력적인 여행지 추천" else "인기 있는 여행지 추천"
  }

  /** `labels.get(code, code)`. */
  function Label(labels: map<string, string>, code: string): string
  {
    if code in labels then labels[code] else code
  }

  /** `[interest_map.get(i, i) for i in interests]`. */
  function Labels(labels: map<string, string>, codes: seq<string>): (r: seq<string>)
    ensures |r| == |codes|
    ensures forall i :: 0 <= i < |codes| ==> r[i] == Label(labels, codes[i])
  {
    if |codes| == 0 then [] else Labels(labels, codes[..|codes| - 1]) + [Label(labels, codes[|codes| - 1])]
  }

  /** A walrus test on a text field: present and not empty. */
  predicate Present(field: Option<string>)
  {
    field.Some? && |field.value| > 0
  }

  /** The part for the interests: their labels after a fixed heading. */
  function InterestsPart(v: Variant, interests: seq<string>): string
  {
    InterestsPrefix + Join(Labels(InterestLabels(v), interests), PartSeparator)
  }

  /** The four preference fields a query can mention. */
  datatype Field = Interests | Environment | Weather | TravelRange

  /** The order in which the query lists the fields. */
  const FieldOrder: seq<Field> := [Interests, Environment, Weather, TravelRange]

  /** The part a field contributes, or None when it is missing or empty. */
  function PartOf(v: Variant, pref: UserPreference, f: Field): (r: Option<string>)
  {
    match f
    case Interests =>
      if pref.mainInterests.Some? && |pref.mainInterests.value| > 0
      then Some(InterestsPart(v, pref.mainInterests.value)) else None
    case Environment =>
      if Present(pref.environment) then Some(Label(EnvironmentLabels, pref.environment.value)) else None
    case Weather =>
      if Present(pref.weather) then Some(Label(WeatherLabels, pref.weather.value)) else None
    case TravelRange =>
      if Present(pref.travelRange) then Some(Label(RangeLabels, pref.travelRange.value)) else None
  }

  /** The parts of the given fields, in the order of the fields, skipping the absent ones. */
  function PartsOf(v: Variant, pref: UserPreference, fields: seq<Field>): (r: seq<string>)
    ensures |r| <= |fields|
  {
    if |fields| == 0 then []
    else
      var head := PartOf(v, pref, fields[0]);
      (if head.Some? then [head.value] else []) + PartsOf(v, pref, fields[1..])
  }

  /** The query for a list of parts. */
  function QueryText(v: Variant, parts: seq<string>): string
  {
    if |parts| == 0 then DefaultQuery(v) else QueryPrefix + Join(parts, PartSeparator)
  }

  /** The query `transform_input` builds from a preference. */
  function Query(v: Variant, pref: UserPreference): string
  {
    QueryText(v, PartsOf(v, pref, FieldOrder))
  }

  /** The query of `transform_input`, with `query_parts` appended to field by field. */
  method TransformQuery(v: Variant, pref: UserPreference) returns (query: string)
    ensures query == Query(v, pref)
  {
    hide Labels, Join, Label, InterestLabels, DefaultQuery, PartsOf;
    var parts: seq<string> := [];
    if pref.mainInterests.Some? && |pref.mainInterests.value| > 0 {
      var mapped := Labels(InterestLabels(v), pref.mainInterests.value);
      parts := parts + [InterestsPrefix + Join(mapped, PartSeparator)];
    }
    PartsSnoc(v, pref, [], Interests);
    assert [] + [Interests] == [Interests];
    assert parts == PartsOf(v, pref, [Interests]);
    if Present(pref.environment) {
      parts := parts + [Label(EnvironmentLabels, pref.environment.value)];
    }
    PartsSnoc(v, pref, [Interests], Environment);
    assert [Interests] + [Environment] == [Interests, Environment];
    assert parts == PartsOf(v, pref, [Interests, Environment]);
    if Present(pref.weather) {
      parts := parts + [Label(WeatherLabels, pref.weather.value)];
    }
    PartsSnoc(v, pref, [Interests, Environment], Weather);
    assert [Interests, Environment] + [Weather] == [Interests, Environment, Weather];
    assert parts == PartsOf(v, pref, [Interests, Environment, Weather]);
    if Present(pref.travelRange) {
      parts := parts + [Label(RangeLabels, pref.travelRange.value)];
    }
    PartsSnoc(v, pref, [Interests, Environment, Weather], TravelRange);
    assert [Interests, Environment, Weather] + [TravelRange] == FieldOrder;
    assert parts == PartsOf(v, pref, FieldOrder);
    query := if |parts| > 0 then QueryPrefix + Join(parts, PartSeparator) else DefaultQuery(v);
  }

  /** Appending a field to the list appends its part, if any. */
  lemma {:induction false} PartsSnoc(v: Variant, pref: UserPreference, fields: seq<Field>, f: Field)
    ensures var p := PartOf(v, pref, f);
      PartsOf(v, pref, fields + [f]) == PartsOf(v, pref, fields) + (if p.Some? then [p.value] else [])
    ensures |fields| == 0 ==> PartsOf(v, pref, fields) == []
    decreases |fields|
  {
    if |fields| == 0 {
      assert ([] + [f])[1..] == [];
    } else {
      assert (fields + [f])[1..] == fields[1..] + [f];
      PartsSnoc(v, pref, fields[1..], f);
    }
  }

  /** `transform_input`: only `transformed_query` is added to the state. */
  method TransformInput(v: Variant, s: GraphState) returns (r: GraphState)
    ensures r == s.(transformedQuery := Some(Query(v, PreferenceOf(s))))
  {
    var query := TransformQuery(v, PreferenceOf(s));
    r := s.(transformedQuery := Some(query));
  }

  /** A present field's part is one of the parts, and an absent field contributes none. */
  lemma {:induction false} PartsOfHas(v: Variant, pref: UserPreference, fields: seq<Field>, i: nat)
    requires i < |fields|
    ensures PartOf(v, pref, fields[i]).Some? ==> PartOf(v, pref, fields[i]).value in PartsOf(v, pref, fields)
    decreases |fields|
  {
    if i > 0 {
      PartsOfHas(v, pref, fields[1..], i - 1);
      assert fields[1..][i - 1] == fields[i];
    }
  }

  /** The parts are as many as the present fields, and none of them when no field is present. */
  lemma {:induction false} PartsCount(v: Variant, pref: UserPreference, fields: seq<Field>)
    ensures |PartsOf(v, pref, fields)| == 0 <==> forall i :: 0 <= i < |fields| ==> PartOf(v, pref, fields[i]).None?
    decreases |fields|
  {
    if |fields| > 0 {
      PartsCount(v, pref, fields[1..]);
      assert forall i :: 1 <= i < |fields| ==> fields[1..][i - 1] == fields[i];
    }
  }

  /**
   * With no present field the query is the variant's default; otherwise it
   * starts with the fixed prefix and mentions the part of every present
   * field: the labels of the interests, and the label of (or the code
   * itself for) the environment, the weather and the travel range.
   */
  lemma QueryMentions(v: Variant, pref: UserPreference)
    ensures var q := Query(v, pref);
      (q == DefaultQuery(v) <==> forall i :: 0 <= i < |FieldOrder| ==> PartOf(v, pref, FieldOrder[i]).None?)
      && (q != DefaultQuery(v) ==> StartsWith(q, QueryPrefix))
      && (forall i :: 0 <= i < |FieldOrder| && PartOf(v, pref, FieldOrder[i]).Some? ==>
            Contains(q, PartOf(v, pref, FieldOrder[i]).value))
  {
    var parts := PartsOf(v, pref, FieldOrder);
    PartsCount(v, pref, FieldOrder);
    var q := Query(v, pref);
    if |parts| > 0 {
      assert q != DefaultQuery(v) by {
        assert q[0] == QueryPrefix[0] != DefaultQuery(v)[0];
      }
      assert q[..|QueryPrefix|] == QueryPrefix;
    }
    forall i | 0 <= i < |FieldOrder| && PartOf(v, pref, FieldOrder[i]).Some?
      ensures Contains(q, PartOf(v, pref, FieldOrder[i]).value)
    {
      var part := PartOf(v, pref, FieldOrder[i]).value;
      PartsOfHas(v, pref, FieldOrder, i);
      var k :| 0 <= k < |parts| && parts[k] == part;
      JoinContains(parts, PartSeparator, k);
      ContainsAfter(QueryPrefix, Join(parts, PartSeparator), part);
    }
  }

  /** Every interest's label (or the code itself, when unknown) appears in the query. */
  lemma InterestMentioned(v: Variant, pref: UserPreference, j: nat)
    requires pref.mainInterests.Some? && j < |pref.mainInterests.value|
    ensures Contains(Query(v, pref), Label(InterestLabels(v), pref.mainInterests.value[j]))
  {
    var interests := pref.mainInterests.value;
    var mapped := Labels(InterestLabels(v), interests);
    QueryMentions(v, pref);
    assert FieldOrder[0] == Interests;
    JoinContains(mapped, PartSeparator, j);
    ContainsAfter(InterestsPrefix, Join(mapped, PartSeparator), mapped[j]);
    ContainsTrans(Query(v, pref), InterestsPart(v, interests), mapped[j]);
  }

  /**
   * The two versions build the same query whenever some field is present and
   * no interest is `FOOD` or `ACTIVITY`, the two codes whose labels differ.
   */
  lemma VariantsAgree(pref: UserPreference)
    requires pref.mainInterests.None? || forall k :: 0 <= k < |pref.mainInterests.value| ==>
               pref.mainInterests.value[k] != "FOOD" && pref.mainInterests.value[k] != "ACTIVITY"
    requires exists i :: 0 <= i < |FieldOrder| && PartOf(Current, pref, FieldOrder[i]).Some?
    ensures Query(Current, pref) == Query(Legacy, pref)
  {
    if pref.mainInterests.Some? {
      var codes := pref.mainInterests.value;
      assert Labels(InterestLabels(Current), codes) == Labels(InterestLabels(Legacy), codes);
    }
    assert PartsOf(Current, pref, FieldOrder) == PartsOf(Legacy, pref, FieldOrder) by {
      forall f: Field ensures PartOf(Current, pref, f) == PartOf(Legacy, pref, f) {
        if f == Interests && pref.mainInterests.Some? {
          var codes := pref.mainInterests.value;
          assert Labels(InterestLabels(Current), codes) == Labels(InterestLabels(Legacy), codes);
        }
      }
      PartsSameFields(pref, FieldOrder);
    }
    PartsCount(Current, pref, FieldOrder);
  }

  lemma {:induction false} PartsSameFields(pref: UserPreference, fields: seq<Field>)
    requires forall f: Field :: PartOf(Current, pref, f) == PartOf(Legacy, pref, f)
    ensures PartsOf(Current, pref, fields) == PartsOf(Legacy, pref, fields)
    decreases |fields|
  {
    if |fields| > 0 {
      PartsSameFields(pref, fields[1..]);
    }
  }

  /** The legacy node's query for an empty preference. */
  lemma EmptyPreferenceQuery(v: Variant)
    ensures Query(v, NoPreference) == DefaultQuery(v)
    ensures Query(Legacy, NoPreference) == "인기 있는 여행지 추천"
  {
    PartsCount(v, NoPreference, FieldOrder);
    PartsCount(Legacy, NoPreference, FieldOrder);
  }

  /** A known environment, weather or travel-range code appears in the query as its label. */
  lemma CodeMentioned(v: Variant, pref: UserPreference, f: Field, code: string)
    requires f != Interests
    requires f == Environment ==> pref.environment == Some(code) && code in EnvironmentLabels
    requires f == Weather ==> pref.weather == Some(code) && code in WeatherLabels
    requires f == TravelRange ==> pref.travelRange == Some(code) && code in RangeLabels
    ensures f == Environment ==> Contains(Query(v, pref), EnvironmentLabels[code])
    ensures f == Weather ==> Contains(Query(v, pref), WeatherLabels[code])
    ensures f == TravelRange ==> Contains(Query(v, pref), RangeLabels[code])
  {
    QueryMentions(v, pref);
    var i := if f == Environment then 1 else if f == Weather then 2 else 3;
    assert FieldOrder[i] == f;
  }

  /**
   * The legacy node's query for the preferences of its examples: the labels
   * of known codes appear in it.
   */
  lemma LegacyExamples()
    ensures var q := Query(Legacy, UserPreference(None, None, Some(["HISTORY", "FOOD"]), None, None));
      Contains(q, "역사와 문화 유적") && Contains(q, "맛집과 음식 문화")
    ensures Contains(Query(Legacy, UserPreference(Some("DOMESTIC"), None, None, None, None)), "국내 여행")
    ensures Contains(Query(Legacy, UserPreference(None, None, None, Some("COASTAL"), None)), "해안가와 바다")
    ensures var q := Query(Legacy, UserPreference(Some("EUROPE"), Some("HIGH"), Some(["HISTORY", "NATURE"]),
                                                  Some("URBAN"), Some("COOL")));
      Contains(q, "유럽") && Contains(q, "역사와 문화 유적") && Contains(q, "도시적인 분위기") && Contains(q, "시원한 날씨")
  {
    hide Query, PartsOf, Join, Labels;
    var p1 := UserPreference(None, None, Some(["HISTORY", "FOOD"]), None, None);
    InterestMentioned(Legacy, p1, 0);
    InterestMentioned(Legacy, p1, 1);
    CodeMentioned(Legacy, UserPreference(Some("DOMESTIC"), None, None, None, None), TravelRange, "DOMESTIC");
    CodeMentioned(Legacy, UserPreference(None, None, None, Some("COASTAL"), None), Environment, "COASTAL");
    var p4 := UserPreference(Some("EUROPE"), Some("HIGH"), Some(["HISTORY", "NATURE"]), Some("URBAN"), Some("COOL"));
    InterestMentioned(Legacy, p4, 0);
    CodeMentioned(Legacy, p4, TravelRange, "EUROPE");
    CodeMentioned(Legacy, p4, Environment, "URBAN");
    CodeMentioned(Legacy, p4, Weather, "COOL");
  }
}
