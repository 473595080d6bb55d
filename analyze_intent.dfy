/**
 * The intent analysis node of the itinerary chat
 * (`app/graph/chat/nodes/analyze_intent.py`): the region hints read from
 * place addresses, the search-keyword region guard, the LLM routing
 * classification with its keyword heuristics as fallback, the recovery of a
 * JSON object from an LLM reply, and the decision table that turns the
 * classification and the extracted draft into the next chat state.
 *
 * The LLM replies, the Pydantic parsers, `json.loads` and the three regex
 * request heuristics are parameters.
 */
module AnalyzeIntent {
  import opened Wrappers
  import opened PyText
  import opened PyList
  import opened Itinerary
  import opened ChatSchema
  import opened ChatGraphState
  import opened RoadmapUtils

  // ------------------------------------------------------------ region hints

  predicate IsHangulSyllable(c: char) { '가' <= c <= '힣' }

  /** `_contains_hangul`: some character is a Hangul syllable. */
  predicate ContainsHangul(text: string)
  {
    exists i :: 0 <= i < |text| && IsHangulSyllable(text[i])
  }

  /** `s.endswith(suffixes)` for a tuple of suffixes. */
  predicate EndsWithAny(s: string, suffixes: seq<string>)
  {
    exists k :: 0 <= k < |suffixes| && EndsWith(s, suffixes[k])
  }

  const CitySuffixes: seq<string> := ["특별시", "광역시", "특별자치시", "특별자치도", "시", "도"]
  const LocalSuffixes: seq<string> := ["구", "군", "읍", "면", "동"]

  /** The white-space separated tokens of the part of an address before its first comma. */
  function AddressTokens(address: string): (r: seq<string>)
    ensures forall k :: 0 <= k < |r| ==> |r[k]| > 0 && Stripped(r[k])
  {
    Words(Strip(Split(address, ',')[0]))
  }

  /** The position of the first token ending with one of `suffixes`, or `|tokens|`. */
  function FirstEnding(tokens: seq<string>, suffixes: seq<string>): (r: nat)
    ensures r <= |tokens|
    ensures r < |tokens| ==> EndsWithAny(tokens[r], suffixes)
    ensures forall j :: 0 <= j < r ==> !EndsWithAny(tokens[j], suffixes)
    decreases |tokens|
  {
    if |tokens| == 0 || EndsWithAny(tokens[0], suffixes) then 0
    else 1 + FirstEnding(tokens[1..], suffixes)
  }

  /**
   * The hint `_extract_korean_region_hint` returns: the first token with a
   * city suffix (followed by the next token when that one has a local
   * suffix), else the first local-suffix token among the first four, else
   * the first token; None when there is no token.
   */
  function KoreanRegionHint(address: string): Option<string>
  {
    var tokens := AddressTokens(address);
    if |tokens| == 0 then None
    else
      var c := FirstEnding(tokens, CitySuffixes);
      if c < |tokens| then
        if c + 1 < |tokens| && EndsWithAny(tokens[c + 1], LocalSuffixes) then Some(tokens[c] + " " + tokens[c + 1])
        else Some(tokens[c])
      else Some(LocalOrFirst(tokens))
  }

  /** The first local-suffix token among the first four, else the first token. */
  function LocalOrFirst(tokens: seq<string>): (r: string)
    requires |tokens| > 0
    ensures r in tokens
  {
    var head := Take(tokens, 4);
    var l := FirstEnding(head, LocalSuffixes);
    if l < |head| then head[l] else tokens[0]
  }

  /** `_extract_korean_region_hint`: the two scans over the tokens. */
  method ExtractKoreanRegionHint(address: string) returns (hint: Option<string>)
    ensures hint == KoreanRegionHint(address)
  {
    var tokens := AddressTokens(address);
    if |tokens| == 0 {
      return None;
    }
    var index := 0;
    while index < |tokens|
      invariant 0 <= index <= |tokens|
      invariant forall j :: 0 <= j < index ==> !EndsWithAny(tokens[j], CitySuffixes)
    {
      var token := tokens[index];
      if EndsWithAny(token, CitySuffixes) {
        assert FirstEnding(tokens, CitySuffixes) == index;
        if index + 1 < |tokens| && EndsWithAny(tokens[index + 1], LocalSuffixes) {
          return Some(token + " " + tokens[index + 1]);
        }
        return Some(token);
      }
      index := index + 1;
    }
    assert FirstEnding(tokens, CitySuffixes) == |tokens|;
    var token := ScanLocalSuffix(tokens);
    return Some(token);
  }

  /** The second scan of `_extract_korean_region_hint`, over at most four tokens. */
  method ScanLocalSuffix(tokens: seq<string>) returns (token: string)
    requires |tokens| > 0
    ensures token == LocalOrFirst(tokens)
  {
    ghost var head := Take(tokens, 4);
    var k := 0;
    while k < |tokens| && k < 4
      invariant 0 <= k <= |head| && head[..k] == tokens[..k]
      invariant forall j :: 0 <= j < k ==> !EndsWithAny(tokens[j], LocalSuffixes)
    {
      if EndsWithAny(tokens[k], LocalSuffixes) {
        assert head[k] == tokens[k];
        assert FirstEnding(head, LocalSuffixes) == k;
        return tokens[k];
      }
      k := k + 1;
    }
    assert FirstEnding(head, LocalSuffixes) == |head|;
    return tokens[0];
  }

  /** The Korean hint exists exactly when the address has a token, and it is a non-empty stripped text. */
  lemma KoreanHintShape(address: string)
    ensures KoreanRegionHint(address).Some? <==> |AddressTokens(address)| > 0
    ensures var h := KoreanRegionHint(address); h.Some? ==> |h.value| > 0 && Stripped(h.value)
  {
    var tokens := AddressTokens(address);
    if |tokens| > 0 {
      var c := FirstEnding(tokens, CitySuffixes);
      if c + 1 < |tokens| {
        JoinStripped(tokens[c], " ", tokens[c + 1]);
      }
    }
  }

  lemma JoinStripped(a: string, sep: string, b: string)
    requires |a| > 0 && Stripped(a) && |b| > 0 && Stripped(b)
    ensures |a + sep + b| > 0 && Stripped(a + sep + b)
  {
    var t := a + sep + b;
    assert t[0] == a[0] && t[|t| - 1] == b[|b| - 1];
  }

  /** A token with a city suffix wins: the hint starts with the first such token. */
  lemma KoreanHintPrefersCity(address: string, i: nat)
    requires i < |AddressTokens(address)| && EndsWithAny(AddressTokens(address)[i], CitySuffixes)
    ensures var tokens := AddressTokens(address); var c := FirstEnding(tokens, CitySuffixes);
            c <= i && (KoreanRegionHint(address) == Some(tokens[c])
                       || KoreanRegionHint(address) == Some(tokens[c] + " " + tokens[c + 1]))
  {
  }

  predicate IsAsciiLetter(c: char) { 'A' <= c <= 'Z' || 'a' <= c <= 'z' }
  predicate HasAsciiLetter(s: string) { exists i :: 0 <= i < |s| && IsAsciiLetter(s[i]) }
  predicate AllDigits(s: string) { forall i :: 0 <= i < |s| ==> IsDigit(s[i]) }

  /** `re.fullmatch(r"[A-Z]{2,3}", token)`: a state or country code. */
  predicate IsRegionCode(t: string) { 2 <= |t| <= 3 && forall i :: 0 <= i < |t| ==> 'A' <= t[i] <= 'Z' }

  /** `[A-Z]\d[A-Z]\d[A-Z]\d`, a Canadian postal code without its space. */
  predicate LetterDigitRun(t: string)
  {
    |t| == 6 && 'A' <= t[0] <= 'Z' && IsDigit(t[1]) && 'A' <= t[2] <= 'Z'
    && IsDigit(t[3]) && 'A' <= t[4] <= 'Z' && IsDigit(t[5])
  }

  /** `_is_postal_code`: four to ten digits, a ZIP or ZIP+4 code, or a Canadian code. */
  predicate IsPostalCode(token: string)
  {
    var n := Upper(Strip(token));
    (AllDigits(n) && 4 <= |n| <= 10)
    || (|n| == 5 && AllDigits(n))
    || (|n| == 10 && AllDigits(n[..5]) && n[5] == '-' && AllDigits(n[6..]))
    || LetterDigitRun(n)
    || (|n| == 7 && IsSpace(n[3]) && LetterDigitRun(n[..3] + n[4..]))
  }

  /** The stripped, non-blank pieces of a list of texts, in order. */
  function NonBlank(parts: seq<string>): (r: seq<string>)
    ensures forall k :: 0 <= k < |r| ==> |r[k]| > 0 && Stripped(r[k])
    decreases |parts|
  {
    if |parts| == 0 then []
    else (if |Strip(parts[0])| > 0 then [Strip(parts[0])] else []) + NonBlank(parts[1..])
  }

  /** A comma piece that can name a city: not a region code, not a postal code, not digit-led, with a letter. */
  predicate CityPart(t: string)
  {
    |t| > 0 && !IsRegionCode(t) && !IsPostalCode(t) && !IsDigit(t[0]) && HasAsciiLetter(t)
  }

  /** The last city piece, scanning from the end. */
  function LastCityPart(parts: seq<string>): (r: Option<string>)
    ensures r.Some? ==> r.value in parts && CityPart(r.value)
    decreases |parts|
  {
    if |parts| == 0 then None
    else if CityPart(parts[|parts| - 1]) then Some(parts[|parts| - 1])
    else LastCityPart(parts[..|parts| - 1])
  }

  /** `_extract_english_city_country_hint`: "city, country" from a comma address, or the country alone. */
  function EnglishRegionHint(address: string): Option<string>
  {
    var parts := NonBlank(Split(address, ','));
    if |parts| < 2 then None
    else
      var country := parts[|parts| - 1];
      if !HasAsciiLetter(country) then None
      else
        var city := LastCityPart(parts[..|parts| - 1]);
        if city.Some? then Some(city.value + ", " + country) else Some(country)
  }

  const GenericSuffixes: seq<string> := ["city", "province", "prefecture", "state", "county"]

  function FirstGeneric(tokens: seq<string>): (r: Option<string>)
    requires forall k :: 0 <= k < |tokens| ==> |tokens[k]| > 0
    ensures r.Some? ==> r.value in tokens
    decreases |tokens|
  {
    if |tokens| == 0 then None
    else if EndsWithAny(Lower(tokens[0]), GenericSuffixes) || !IsDigit(tokens[0][0]) then Some(tokens[0])
    else FirstGeneric(tokens[1..])
  }

  /** `_extract_generic_region_hint`: the first of the first four tokens that is not digit-led or names a region. */
  function GenericRegionHint(address: string): Option<string>
  {
    FirstGeneric(Take(AddressTokens(address), 4))
  }

  /** `_extract_region_hint_from_address`: Korean hint for Hangul addresses, then English, then generic. */
  function RegionHintFromAddress(address: string): Option<string>
  {
    var text := Strip(address);
    if |text| == 0 then None
    else
      var korean := if ContainsHangul(text) then KoreanRegionHint(text) else None;
      if korean.Some? && |korean.value| > 0 then korean
      else
        var english := EnglishRegionHint(text);
        if english.Some? && |english.value| > 0 then english
        else GenericRegionHint(text)
  }

  lemma EnglishHintStripped(text: string)
    ensures var h := EnglishRegionHint(text); h.Some? ==> |h.value| > 0 && Stripped(h.value)
  {
    var parts := NonBlank(Split(text, ','));
    if |parts| >= 2 {
      var city := LastCityPart(parts[..|parts| - 1]);
      if city.Some? {
        JoinStripped(city.value, ", ", parts[|parts| - 1]);
      }
    }
  }

  lemma GenericHintStripped(text: string)
    ensures var h := GenericRegionHint(text); h.Some? ==> |h.value| > 0 && Stripped(h.value)
  {
  }

  /** Every region hint is a non-empty text without white space at its ends. */
  lemma RegionHintStripped(address: string)
    ensures var h := RegionHintFromAddress(address); h.Some? ==> |h.value| > 0 && Stripped(h.value)
  {
    var text := Strip(address);
    KoreanHintShape(text);
    EnglishHintStripped(text);
    GenericHintStripped(text);
  }

  /** A place whose address gives a (non-empty) hint. */
  predicate HasHint(p: Place)
  {
    var h := RegionHintFromAddress(p.address); h.Some? && |h.value| > 0
  }

  /** The hint of the first place of a day that has one. */
  function FirstPlaceHint(places: seq<Place>): (r: Option<string>)
    decreases |places|
  {
    if |places| == 0 then None
    else if HasHint(places[0]) then RegionHintFromAddress(places[0].address)
    else FirstPlaceHint(places[1..])
  }

  /** The day's hint is that of its first place with a hint, and there is none when no place has one. */
  lemma {:induction false} FirstPlaceHintSpec(places: seq<Place>)
    ensures FirstPlaceHint(places).None? <==> forall j :: 0 <= j < |places| ==> !HasHint(places[j])
    ensures FirstPlaceHint(places).Some? ==>
      exists j :: 0 <= j < |places| && HasHint(places[j]) && FirstPlaceHint(places) == RegionHintFromAddress(places[j].address)
                  && forall i :: 0 <= i < j ==> !HasHint(places[i])
    decreases |places|
  {
    hide RegionHintFromAddress;
    if |places| > 0 && !HasHint(places[0]) {
      FirstPlaceHintSpec(places[1..]);
      assert forall j :: 1 <= j < |places| ==> places[1..][j - 1] == places[j];
      if FirstPlaceHint(places).Some? {
        var j :| 0 <= j < |places[1..]| && HasHint(places[1..][j])
                 && FirstPlaceHint(places[1..]) == RegionHintFromAddress(places[1..][j].address)
                 && forall i :: 0 <= i < j ==> !HasHint(places[1..][i]);
        assert HasHint(places[j + 1]);
      }
    }
  }

  /** The hints of a list of days, keyed by day number; a later day with the same number and a hint overwrites. */
  function DayRegionHints(days: seq<Day>): map<int, string>
    decreases |days|
  {
    if |days| == 0 then map[]
    else
      var hints := DayRegionHints(days[..|days| - 1]);
      var day := days[|days| - 1];
      var h := FirstPlaceHint(day.places);
      if h.Some? then hints[day.dayNumber := h.value] else hints
  }

  /** `_build_day_region_hints`: per day, the first place with a hint, found by a scan that breaks. */
  method BuildDayRegionHints(days: seq<Day>) returns (hints: map<int, string>)
    ensures hints == DayRegionHints(days)
  {
    hints := map[];
    var i := 0;
    while i < |days|
      invariant 0 <= i <= |days|
      invariant hints == DayRegionHints(days[..i])
    {
      var day := days[i];
      var j := 0;
      while j < |day.places|
        invariant 0 <= j <= |day.places|
        invariant hints == DayRegionHints(days[..i])
        invariant FirstPlaceHint(day.places) == FirstPlaceHint(day.places[j..])
      {
        var hint := RegionHintFromAddress(day.places[j].address);
        if hint.Some? && |hint.value| > 0 {
          hints := hints[day.dayNumber := hint.value];
          break;
        }
        assert day.places[j..][1..] == day.places[j + 1..];
        j := j + 1;
      }
      assert days[..i + 1][..i] == days[..i];
      i := i + 1;
    }
    assert days[..i] == days;
  }

  predicate DistinctDayNumbers(days: seq<Day>)
  {
    forall i, j :: 0 <= i < j < |days| ==> days[i].dayNumber != days[j].dayNumber
  }

  /**
   * With distinct day numbers, a day has a hint exactly when one of its
   * places has one, and it is the first such place's hint.
   */
  lemma {:induction false} DayRegionHintsSpec(days: seq<Day>, k: nat)
    requires DistinctDayNumbers(days) && k < |days|
    ensures days[k].dayNumber in DayRegionHints(days) <==> FirstPlaceHint(days[k].places).Some?
    ensures days[k].dayNumber in DayRegionHints(days) ==>
      DayRegionHints(days)[days[k].dayNumber] == FirstPlaceHint(days[k].places).value
    decreases |days|
  {
    var init := days[..|days| - 1];
    if k < |days| - 1 {
      assert init[k] == days[k];
      DayRegionHintsSpec(init, k);
    } else if days[k].dayNumber in DayRegionHints(init) {
      DayRegionHintsKeys(init, days[k].dayNumber);
    }
  }

  /** Every key is the number of some day. */
  lemma {:induction false} DayRegionHintsKeys(days: seq<Day>, d: int)
    requires d in DayRegionHints(days)
    ensures exists k :: 0 <= k < |days| && days[k].dayNumber == d
    decreases |days|
  {
    var init := days[..|days| - 1];
    if d != days[|days| - 1].dayNumber {
      DayRegionHintsKeys(init, d);
      var k :| 0 <= k < |init| && init[k].dayNumber == d;
      assert days[k] == init[k];
    }
  }

  /** Every stored hint is non-empty and stripped. */
  lemma {:induction false} DayRegionHintsStripped(days: seq<Day>)
    ensures forall d :: d in DayRegionHints(days) ==> |DayRegionHints(days)[d]| > 0 && Stripped(DayRegionHints(days)[d])
    decreases |days|
  {
    if |days| > 0 {
      DayRegionHintsStripped(days[..|days| - 1]);
      var places := days[|days| - 1].places;
      FirstPlaceHintSpec(places);
      if FirstPlaceHint(places).Some? {
        var j :| 0 <= j < |places| && HasHint(places[j]) && FirstPlaceHint(places) == RegionHintFromAddress(places[j].address)
                 && forall i :: 0 <= i < j ==> !HasHint(places[i]);
        RegionHintStripped(places[j].address);
      }
    }
  }

  // ---------------------------------------------------- search keyword guard

  /** `ChatIntentDraft`: the lenient parse target, which still enforces the `ge=1` bounds. */
  type Draft = i: ChatIntent | FieldBounds(i) witness ChatIntent(Replace, 1, 1, None, None, None, "", false, false)

  /**
   * `_ensure_search_keyword_contains_region`: for REPLACE and ADD with a
   * non-blank keyword and a hint for the target day, prefixes "hint " to the
   * stripped keyword unless the hint already occurs in it, ignoring case.
   */
  function EnsureSearchKeywordContainsRegion(draft: Draft, hints: map<int, string>): (r: Draft)
    ensures r == draft.(searchKeyword := r.searchKeyword)
  {
    if !(draft.op.Replace? || draft.op.Add?) then draft
    else
      var keyword := Strip(draft.searchKeyword.GetOr(""));
      if |keyword| == 0 || draft.targetDay !in hints || |hints[draft.targetDay]| == 0 then draft
      else
        var hint := hints[draft.targetDay];
        if Contains(Lower(keyword), Lower(hint)) then draft
        else draft.(searchKeyword := Some(hint + " " + keyword))
  }

  /** Only a REPLACE or ADD whose day has a hint can change, and then to "hint keyword". */
  lemma KeywordChangedOnlyWhen(draft: Draft, hints: map<int, string>)
    ensures var r := EnsureSearchKeywordContainsRegion(draft, hints);
      r != draft ==> (draft.op.Replace? || draft.op.Add?) && draft.targetDay in hints
                     && r.searchKeyword == Some(hints[draft.targetDay] + " " + Strip(draft.searchKeyword.GetOr("")))
                     && !Contains(Lower(Strip(draft.searchKeyword.GetOr(""))), Lower(hints[draft.targetDay]))
  {
  }

  lemma PrefixContained(hint: string, keyword: string)
    requires |hint| > 0 && Stripped(hint) && |keyword| > 0 && Stripped(keyword)
    ensures Strip(hint + " " + keyword) == hint + " " + keyword
    ensures Contains(Lower(hint + " " + keyword), Lower(hint))
  {
    var t := hint + " " + keyword;
    assert t[0] == hint[0] && t[|t| - 1] == keyword[|keyword| - 1];
    StripIdempotent(t);
    AppendAssoc(hint, " ", keyword);
    LowerAppend(hint, " " + keyword);
    assert Lower(t)[..|Lower(hint)|] == Lower(hint);
    ContainsPrefix(Lower(t), Lower(hint));
  }

  /** After the guard, a REPLACE/ADD keyword of a day with a hint holds that hint, ignoring case. */
  lemma KeywordHasRegion(draft: Draft, hints: map<int, string>)
    requires draft.op.Replace? || draft.op.Add?
    requires draft.searchKeyword.Some? && |Strip(draft.searchKeyword.value)| > 0
    requires draft.targetDay in hints && |hints[draft.targetDay]| > 0 && Stripped(hints[draft.targetDay])
    ensures var r := EnsureSearchKeywordContainsRegion(draft, hints);
      r.searchKeyword.Some? && Contains(Lower(Strip(r.searchKeyword.value)), Lower(hints[draft.targetDay]))
  {
    var r := EnsureSearchKeywordContainsRegion(draft, hints);
    if r != draft {
      PrefixContained(hints[draft.targetDay], Strip(draft.searchKeyword.value));
    }
  }

  /** The guard is idempotent once the hints are stripped. */
  lemma KeywordGuardIdempotent(draft: Draft, hints: map<int, string>)
    requires draft.targetDay in hints ==> Stripped(hints[draft.targetDay])
    ensures var r := EnsureSearchKeywordContainsRegion(draft, hints);
      EnsureSearchKeywordContainsRegion(r, hints) == r
  {
    var r := EnsureSearchKeywordContainsRegion(draft, hints);
    if r != draft {
      PrefixContained(hints[draft.targetDay], Strip(draft.searchKeyword.GetOr("")));
    }
  }

  // ------------------------------------------------------ routing classifier

  datatype RequestedAction = DeleteAction | AddAction | ReplaceAction | MoveAction | UnknownAction
  datatype TargetScope = DayLevel | ItemLevel | UnknownScope

  /** `ChatIntentRoute`. */
  datatype Route = Route(intentType: IntentType, requestedAction: RequestedAction, targetScope: TargetScope, reasoning: string)

  /**
   * The three regex heuristics over the user query: a day or date change,
   * an explicit whole-day delete, and a delete that names a day but no place.
   */
  datatype Heuristics = Heuristics(
    dayOrDateChange: string -> bool,
    explicitDayDelete: string -> bool,
    ambiguousDayItemDelete: string -> bool)

  const ModificationKeywords: seq<string> :=
    ["바꿔", "변경", "수정", "추가", "삭제", "제거", "옮겨", "이동", "순서", "replace", "add", "remove", "move"]

  /** `any(word in text for word in words)`. */
  function AnyContained(text: string, words: seq<string>): (r: bool)
    ensures r <==> exists k :: 0 <= k < |words| && Contains(text, words[k])
    decreases |words|
  {
    if |words| == 0 then false
    else
      assert forall k :: 1 <= k < |words| ==> words[1..][k - 1] == words[k];
      Contains(text, words[0]) || AnyContained(text, words[1..])
  }

  /** `_has_modification_keyword`: some listed keyword occurs in the lower-cased query. */
  function HasModificationKeyword(query: string): (r: bool)
    ensures r <==> exists k :: 0 <= k < |ModificationKeywords| && Contains(Lower(query), ModificationKeywords[k])
  {
    AnyContained(Lower(query), ModificationKeywords)
  }

  /** Lower-casing keeps an occurrence: `p in s` implies `p.lower() in s.lower()`. */
  lemma {:induction false} LowerContains(s: string, p: string)
    requires Contains(s, p)
    ensures Contains(Lower(s), Lower(p))
    decreases |s|
  {
    if StartsWith(s, p) {
      assert s[..|p|] == p;
      assert Lower(s)[..|p|] == Lower(p);
    } else {
      LowerContains(s[1..], p);
      assert Lower(s)[1..] == Lower(s[1..]);
    }
  }

  /** The keyword test ignores case: a query holding a keyword in any letter case has a modification keyword. */
  lemma ModificationKeywordAnyCase(query: string, word: string, k: nat)
    requires k < |ModificationKeywords| && Lower(word) == ModificationKeywords[k] && Contains(query, word)
    ensures HasModificationKeyword(query)
  {
    LowerContains(query, word);
  }

  const DayChangeReason := "휴리스틱: 일차/날짜 변경 요청"
  const DayDeleteReason := "휴리스틱: 일차 단위 삭제 요청"
  const AmbiguousDeleteReason := "휴리스틱: 삭제 대상이 모호한 요청"
  const KeywordReason := "휴리스틱: 수정 의도 키워드 감지"
  const GeneralChatReason := "휴리스틱: 일반 대화"

  /** The route `_classify_intent_route` falls back to when the LLM call or its parse fails. */
  function FallbackRoute(query: string, h: Heuristics): Route
  {
    if h.dayOrDateChange(query) then Route(Modification, MoveAction, DayLevel, DayChangeReason)
    else if h.explicitDayDelete(query) then Route(Modification, DeleteAction, DayLevel, DayDeleteReason)
    else if h.ambiguousDayItemDelete(query) then Route(Modification, DeleteAction, UnknownScope, AmbiguousDeleteReason)
    else if HasModificationKeyword(query) then Route(Modification, UnknownAction, UnknownScope, KeywordReason)
    else Route(GeneralChatIntent, UnknownAction, UnknownScope, GeneralChatReason)
  }

  /** `_classify_intent_route`: the parsed LLM classification, or the heuristic fallback. */
  function ClassifyIntentRoute(query: string, reply: Option<Route>, h: Heuristics): (r: Route)
    ensures reply.Some? ==> r == reply.value
  {
    if reply.Some? then reply.value else FallbackRoute(query, h)
  }

  // ------------------------------------------------------- draft extraction

  /** What `json.loads` yields, as far as the code looks at it: an object or something else. */
  datatype JsonValue = JsonObject(members: seq<(string, JsonValue)>) | JsonArray(items: seq<JsonValue>) | JsonScalar(literal: string)

  /** The position of the first `c` in `s`, or `|s|`. */
  function FirstAt(s: string, c: char): (r: nat)
    ensures r <= |s| && (r < |s| ==> s[r] == c)
    ensures forall k :: 0 <= k < r ==> s[k] != c
    decreases |s|
  {
    if |s| == 0 || s[0] == c then 0 else 1 + FirstAt(s[1..], c)
  }

  /** The position of the last `c` in `s`, or -1. */
  function LastAt(s: string, c: char): (r: int)
    ensures -1 <= r < |s| && (r >= 0 ==> s[r] == c)
    ensures forall k :: r < k < |s| ==> s[k] != c
    decreases |s|
  {
    if |s| == 0 then -1 else if s[|s| - 1] == c then |s| - 1 else LastAt(s[..|s| - 1], c)
  }

  /**
   * `re.search(r"\{[\s\S]*\}", content)`: the greedy match runs from the
   * leftmost `{` to the last `}` after it.
   */
  function BraceSpan(content: string): (r: Option<string>)
    ensures r.Some? ==> |r.value| >= 2 && r.value[0] == '{' && r.value[|r.value| - 1] == '}'
  {
    var i := FirstAt(content, '{');
    var j := LastAt(content, '}');
    if i < j then Some(content[i..j + 1]) else None
  }

  /** The regex matches exactly when some `{` comes before some `}`, and the match is the widest such slice. */
  lemma BraceSpanSpec(content: string)
    ensures BraceSpan(content).Some? <==>
      exists i, j :: 0 <= i < j < |content| && content[i] == '{' && content[j] == '}'
    ensures BraceSpan(content).Some? ==>
      exists i, j :: 0 <= i < j < |content| && content[i] == '{' && content[j] == '}'
                     && BraceSpan(content).value == content[i..j + 1]
                     && (forall k :: 0 <= k < i ==> content[k] != '{') && (forall k :: j < k < |content| ==> content[k] != '}')
  {
    var i := FirstAt(content, '{');
    var j := LastAt(content, '}');
    if exists a, b :: 0 <= a < b < |content| && content[a] == '{' && content[b] == '}' {
      var a, b :| 0 <= a < b < |content| && content[a] == '{' && content[b] == '}';
      assert i <= a && b <= j;
    }
  }

  /**
   * `_extract_json_object`: the code-fence-free reply parsed whole; only when
   * that parse fails, the brace span parsed. Never raises; only an object
   * is returned.
   */
  function ExtractJsonObject(text: string, loads: string -> Option<JsonValue>): (r: Option<JsonValue>)
    ensures r.Some? ==> r.value.JsonObject?
  {
    var content := StripCodeFence(text);
    if |content| == 0 then None
    else
      var whole := loads(content);
      if whole.Some? then (if whole.value.JsonObject? then whole else None)
      else
        var span := BraceSpan(content);
        if span.None? then None
        else
          var part := loads(span.value);
          if part.Some? && part.value.JsonObject? then part else None
  }

  /** The brace span is tried only when the whole reply is not JSON, and a blank reply gives nothing. */
  lemma ExtractJsonObjectOrder(text: string, loads: string -> Option<JsonValue>)
    ensures |StripCodeFence(text)| == 0 ==> ExtractJsonObject(text, loads).None?
    ensures var whole := loads(StripCodeFence(text));
      |StripCodeFence(text)| > 0 && whole.Some? ==>
        ExtractJsonObject(text, loads) == (if whole.value.JsonObject? then whole else None)
    ensures var content := StripCodeFence(text);
      |content| > 0 && loads(content).None? && BraceSpan(content).None? ==> ExtractJsonObject(text, loads).None?
  {
  }

  /**
   * The LLM side of `_parse_modification_intent`: the reply text (None when
   * the call raises), the draft parser, `json.loads` and `ChatIntentDraft.model_validate`
   * (None when each raises).
   */
  datatype DraftSource = DraftSource(
    reply: Option<string>,
    parseDraft: string -> Option<Draft>,
    loads: string -> Option<JsonValue>,
    draftOfJson: JsonValue -> Option<Draft>)

  /** `_parse_modification_intent`: the parsed draft, else the draft validated from the recovered object; None when it raises. */
  function ParseModificationIntent(src: DraftSource): (r: Option<Draft>)
    ensures src.reply.None? ==> r.None?
  {
    if src.reply.None? then None
    else
      var content := StripCodeFence(src.reply.value);
      var parsed := src.parseDraft(content);
      if parsed.Some? then parsed
      else
        var recovered := ExtractJsonObject(content, src.loads);
        if recovered.Some? then src.draftOfJson(recovered.value) else None
  }

  // ---------------------------------------------------------- decision table

  const MissingInputError := "의도 분석에는 current_itinerary와 user_query가 필요합니다."
  const DayDeleteRejected := "일차 삭제는 지원하지 않습니다. 삭제할 장소 순서를 지정해 주세요."
  const DeleteTargetQuestion := "삭제할 일차와 장소 순서를 함께 알려주세요. 예: '1일차 2번째 장소 삭제해줘'"
  const DayChangeRejected := "일차(날짜) 자체는 변경할 수 없습니다. 각 일차 내부 장소 일정만 수정할 수 있어요."
  const IntentParseError := "수정 의도 분석에 실패했습니다."
  const AmbiguousSummary := "요청이 모호하여 확인이 필요합니다."
  const MoreInfoSummary := "수정 대상 확인을 위해 추가 정보가 필요합니다."

  /** Everything the node consults besides the state: the classifier reply, the heuristics and the draft source. */
  datatype IntentEnv = IntentEnv(classifierReply: Option<Route>, heuristics: Heuristics, draftSource: DraftSource)

  /** `text or default`. */
  function OrDefault(text: string, default: string): (r: string)
    ensures |default| > 0 ==> |r| > 0
  {
    if |text| > 0 then text else default
  }

  /** A modification request settled without an intent. */
  function Decided(s: ChatState, status: ChatStatus, summary: string): ChatState
  {
    s.(intentType := Some(Modification), status := Some(status), changeSummary := summary)
  }

  /** A draft kept for a clarification question. */
  function Asked(s: ChatState, draft: Draft, summary: string): ChatState
  {
    s.(intentType := Some(Modification), intent := Some(draft), status := Some(AskClarification), changeSummary := summary)
  }

  /** The state after a draft was obtained: clarification, a strict-validation question, or the stored intent. */
  function DraftOutcome(s: ChatState, draft: Draft): ChatState
  {
    if draft.needsClarification then Asked(s, draft, OrDefault(draft.reasoning, AmbiguousSummary))
    else if ValidateMoveDestination(draft).Some? then Asked(s, draft, OrDefault(draft.reasoning, MoreInfoSummary))
    else s.(intentType := Some(Modification), intent := Some(draft))
  }

  /** The node after the input check, given the hints it built. */
  function Decide(s: ChatState, env: IntentEnv, hints: map<int, string>): (r: ChatState)
    ensures r.currentItinerary == s.currentItinerary && r.userQuery == s.userQuery
    ensures r.modifiedItinerary == s.modifiedItinerary && r.diffKeys == s.diffKeys && r.warnings == s.warnings
  {
    var route := ClassifyIntentRoute(s.userQuery, env.classifierReply, env.heuristics);
    if route.intentType.GeneralChatIntent? then s.(intentType := Some(GeneralChatIntent))
    else if route.requestedAction.DeleteAction? && route.targetScope.DayLevel? then Decided(s, Rejected, DayDeleteRejected)
    else if route.requestedAction.DeleteAction? && route.targetScope.UnknownScope? then
      Decided(s, AskClarification, DeleteTargetQuestion)
    else if route.targetScope.DayLevel? || env.heuristics.dayOrDateChange(s.userQuery) then
      Decided(s, Rejected, DayChangeRejected)
    else DraftPath(s, ParseModificationIntent(env.draftSource), hints)
  }

  /** The rows after the route: the parsed draft is guarded and judged; an error when there is none. */
  function DraftPath(s: ChatState, parsed: Option<Draft>, hints: map<int, string>): (r: ChatState)
    ensures r.currentItinerary == s.currentItinerary && r.userQuery == s.userQuery
    ensures r.modifiedItinerary == s.modifiedItinerary && r.diffKeys == s.diffKeys && r.warnings == s.warnings
  {
    if parsed.None? then s.(error := Some(IntentParseError))
    else DraftOutcome(s, EnsureSearchKeywordContainsRegion(parsed.value, hints))
  }

  /** What `analyze_intent` returns for a state. */
  function AnalyzeIntentNode(s: ChatState, env: IntentEnv): (r: ChatState)
    ensures r.currentItinerary == s.currentItinerary && r.userQuery == s.userQuery
    ensures r.modifiedItinerary == s.modifiedItinerary && r.diffKeys == s.diffKeys && r.warnings == s.warnings
  {
    if s.currentItinerary.None? || |s.userQuery| == 0 then s.(error := Some(MissingInputError))
    else Decide(s, env, DayRegionHints(s.currentItinerary.value.days))
  }

  /** `analyze_intent`. */
  method AnalyzeIntentStep(s: ChatState, env: IntentEnv) returns (r: ChatState)
    ensures r == AnalyzeIntentNode(s, env)
  {
    if s.currentItinerary.None? || |s.userQuery| == 0 {
      return s.(error := Some(MissingInputError));
    }
    var hints := BuildDayRegionHints(s.currentItinerary.value.days);
    r := Decide(s, env, hints);
  }

  /** A missing itinerary or query sets only the error. */
  lemma AnalyzeMissingInput(s: ChatState, env: IntentEnv)
    requires s.currentItinerary.None? || |s.userQuery| == 0
    ensures AnalyzeIntentNode(s, env) == s.(error := Some(MissingInputError))
  {
  }

  /** The route of a state with an itinerary and a query. */
  function RouteOf(s: ChatState, env: IntentEnv): Route
  {
    ClassifyIntentRoute(s.userQuery, env.classifierReply, env.heuristics)
  }

  /**
   * The rows before the draft, in order: GENERAL_CHAT sets only the intent
   * type; a whole-day delete is rejected; a delete without a scope asks; a
   * day-level or day/date-change request is rejected. None of them stores an
   * intent or sets an error.
   */
  lemma AnalyzeRouteRows(s: ChatState, env: IntentEnv)
    requires s.currentItinerary.Some? && |s.userQuery| > 0
    ensures var route := RouteOf(s, env); var r := AnalyzeIntentNode(s, env);
      (route.intentType.GeneralChatIntent? ==> r == s.(intentType := Some(GeneralChatIntent)))
      && (route.intentType.Modification? && route.requestedAction.DeleteAction? && route.targetScope.DayLevel? ==>
            r == Decided(s, Rejected, DayDeleteRejected))
      && (route.intentType.Modification? && route.requestedAction.DeleteAction? && route.targetScope.UnknownScope? ==>
            r == Decided(s, AskClarification, DeleteTargetQuestion))
      && (route.intentType.Modification? && !(route.requestedAction.DeleteAction? && !route.targetScope.ItemLevel?)
          && (route.targetScope.DayLevel? || env.heuristics.dayOrDateChange(s.userQuery)) ==>
            r == Decided(s, Rejected, DayChangeRejected))
  {
  }

  /**
   * Past the route rows: a draft that cannot be obtained is an error; a draft
   * asking for clarification, or a MOVE without its destination, is stored
   * and asked about with its reasoning (or a default); any other draft is
   * stored as the validated intent, after the keyword guard.
   */
  lemma AnalyzeDraftRows(s: ChatState, env: IntentEnv)
    requires s.currentItinerary.Some? && |s.userQuery| > 0
    requires RouteOf(s, env).intentType.Modification?
    requires !RouteOf(s, env).requestedAction.DeleteAction? || RouteOf(s, env).targetScope.ItemLevel?
    requires !RouteOf(s, env).targetScope.DayLevel? && !env.heuristics.dayOrDateChange(s.userQuery)
    ensures var parsed := ParseModificationIntent(env.draftSource); var r := AnalyzeIntentNode(s, env);
      (parsed.None? ==> r == s.(error := Some(IntentParseError)))
      && (parsed.Some? ==>
            var draft := EnsureSearchKeywordContainsRegion(parsed.value, DayRegionHints(s.currentItinerary.value.days));
            (draft.needsClarification ==>
               r == Asked(s, draft, if |draft.reasoning| > 0 then draft.reasoning else AmbiguousSummary))
            && (!draft.needsClarification && !ValidIntent(draft) ==>
               r == Asked(s, draft, if |draft.reasoning| > 0 then draft.reasoning else MoreInfoSummary))
            && (!draft.needsClarification && ValidIntent(draft) ==>
               r == s.(intentType := Some(Modification), intent := Some(draft))))
  {
  }

  /** The heuristic order when the classifier fails: MOVE/DAY_LEVEL, whole-day delete, ambiguous delete, keyword, chat. */
  lemma FallbackOrder(s: ChatState, env: IntentEnv)
    requires s.currentItinerary.Some? && |s.userQuery| > 0 && env.classifierReply.None?
    ensures var q := s.userQuery; var h := env.heuristics; var r := AnalyzeIntentNode(s, env);
      (h.dayOrDateChange(q) ==> r == Decided(s, Rejected, DayChangeRejected))
      && (!h.dayOrDateChange(q) && h.explicitDayDelete(q) ==> r == Decided(s, Rejected, DayDeleteRejected))
      && (!h.dayOrDateChange(q) && !h.explicitDayDelete(q) && h.ambiguousDayItemDelete(q) ==>
            r == Decided(s, AskClarification, DeleteTargetQuestion))
      && (!h.dayOrDateChange(q) && !h.explicitDayDelete(q) && !h.ambiguousDayItemDelete(q) && !HasModificationKeyword(q) ==>
            r == s.(intentType := Some(GeneralChatIntent)))
      && (!h.dayOrDateChange(q) && !h.explicitDayDelete(q) && !h.ambiguousDayItemDelete(q) && HasModificationKeyword(q) ==>
            r == DraftPath(s, ParseModificationIntent(env.draftSource), DayRegionHints(s.currentItinerary.value.days)))
  {
  }

  /**
   * An intent the node newly stores is either asked about or valid and
   * final; with an intent already fit for the mutation node (or none), the
   * state leaves fit for it unless it asks for clarification.
   */
  lemma AnalyzeStoresValidIntent(s: ChatState, env: IntentEnv)
    ensures var r := AnalyzeIntentNode(s, env);
      r.intent != s.intent ==> (r.intent.Some? &&
        ((r.status == Some(AskClarification) && |r.changeSummary| > 0)
         || (ValidIntent(r.intent.value) && !r.intent.value.needsClarification && r.status == s.status && r.error == s.error)))
  {
    if s.currentItinerary.Some? && |s.userQuery| > 0 {
      DecideStoresValidIntent(s, env, DayRegionHints(s.currentItinerary.value.days));
    }
  }

  lemma DecideStoresValidIntent(s: ChatState, env: IntentEnv, hints: map<int, string>)
    ensures var r := Decide(s, env, hints);
      r.intent != s.intent ==> (r.intent.Some? &&
        ((r.status == Some(AskClarification) && |r.changeSummary| > 0)
         || (ValidIntent(r.intent.value) && !r.intent.value.needsClarification && r.status == s.status && r.error == s.error)))
  {
    var parsed := ParseModificationIntent(env.draftSource);
    if parsed.Some? {
      DraftOutcomeStoresValidIntent(s, EnsureSearchKeywordContainsRegion(parsed.value, hints));
    }
  }

  lemma DraftOutcomeStoresValidIntent(s: ChatState, draft: Draft)
    ensures var r := DraftOutcome(s, draft);
      r.intent != s.intent ==> (r.intent.Some? &&
        ((r.status == Some(AskClarification) && |r.changeSummary| > 0)
         || (ValidIntent(r.intent.value) && !r.intent.value.needsClarification && r.status == s.status && r.error == s.error)))
  {
  }
}
