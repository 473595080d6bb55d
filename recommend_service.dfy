/**
 * The survey recommendation worker (`app/services/recommend_service.py`):
 * the LLM picks five destinations among the candidate regions, its picks are
 * normalised to exactly five distinct candidates, and the outcome is posted
 * once to the caller's callback endpoint. The candidate shuffle and the
 * variation hint are random and come in as the candidate list; the LLM reply
 * and the JSON parser are oracles; the `wait_for` deadline is a flag telling
 * whether it fired.
 */
module RecommendService {
  import opened Wrappers
  import opened PyText
  import PyList
  import RoadmapUtils
  import TimeoutPolicy
  import CallbackDelivery

  const SelectionSize: nat := 5
  const NotSelected: string := "미선택"
  const NoDescription: string := "설명 없음"

  // ---------------------------------------------------------------------------
  // The code fence around a reply

  /** The first line loses an opening fence, then the last line a closing one. */
  function DropFenceLines(lines: seq<string>): (r: seq<string>)
  {
    var afterOpening := if |lines| > 0 && StartsWith(lines[0], RoadmapUtils.Fence) then lines[1..] else lines;
    if |afterOpening| > 0 && StartsWith(afterOpening[|afterOpening| - 1], RoadmapUtils.Fence) then afterOpening[..|afterOpening| - 1] else afterOpening
  }

  /**
   * `_strip_markdown_fence`: the stripped reply; one that opens with a fence
   * loses its first line and, when it is a fence too, its last line. Lines
   * are split at line feeds.
   */
  function StripMarkdownFence(text: string): (r: string)
    ensures RoadmapUtils.Stripped(r)
    ensures !StartsWith(Strip(text), RoadmapUtils.Fence) ==> r == Strip(text)
  {
    var cleaned := Strip(text);
    if !StartsWith(cleaned, RoadmapUtils.Fence) then cleaned
    else Strip(Join(DropFenceLines(Split(cleaned, '\n')), "\n"))
  }

  /** A fenced reply, with any tag on its opening line, gives back the stripped text between the fences. */
  lemma FencedReply(tag: string, body: string)
    requires '\n' !in tag
    ensures StripMarkdownFence(RoadmapUtils.Fence + tag + "\n" + body + "\n" + RoadmapUtils.Fence) == Strip(body)
  {
    var opening := RoadmapUtils.Fence + tag;
    var text := opening + "\n" + body + "\n" + RoadmapUtils.Fence;
    assert text[0] == '`' && text[|text| - 1] == '`';
    StripNoSpace(text);
    assert StartsWith(text, RoadmapUtils.Fence) by { assert text[..3] == RoadmapUtils.Fence; }
    assert text == opening + ['\n'] + (body + ['\n'] + RoadmapUtils.Fence);
    SplitCons(opening, body + ['\n'] + RoadmapUtils.Fence, '\n');
    SplitSnoc(body, RoadmapUtils.Fence, '\n');
    var lines := [opening] + (Split(body, '\n') + [RoadmapUtils.Fence]);
    assert Split(text, '\n') == lines;
    assert StartsWith(opening, RoadmapUtils.Fence) by { assert opening[..3] == RoadmapUtils.Fence; }
    assert lines[1..] == Split(body, '\n') + [RoadmapUtils.Fence];
    assert DropFenceLines(lines) == Split(body, '\n');
    JoinSplit(body, '\n');
  }

  // ---------------------------------------------------------------------------
  // Survey answers in the prompt

  /** A code with its meaning, or the placeholder for a code the table does not know. */
  function Described(value: string, meanings: map<string, string>): string
  {
    value + " (" + (if value in meanings then meanings[value] else NoDescription) + ")"
  }

  /** `_describe_single`: the placeholder for a missing or empty answer, else the described code. */
  function DescribeSingle(value: Option<string>, meanings: map<string, string>): (r: string)
    ensures (value.None? || |value.value| == 0) <==> r == NotSelected
    ensures value.Some? && |value.value| > 0 ==> StartsWith(r, value.value + " (")
  {
    if value.None? || |value.value| == 0 then NotSelected
    else
      var r := Described(value.value, meanings);
      assert r[|r| - 1] == ')' && NotSelected[|NotSelected| - 1] != ')';
      assert r[..|value.value| + 2] == value.value + " (";
      r
  }

  function DescribedAll(values: seq<string>, meanings: map<string, string>): (r: seq<string>)
    ensures |r| == |values|
    ensures forall k :: 0 <= k < |values| ==> r[k] == Described(values[k], meanings)
  {
    if |values| == 0 then [] else [Described(values[0], meanings)] + DescribedAll(values[1..], meanings)
  }

  /** `_describe_multi`: the placeholder for a missing or empty list, else the described codes joined by commas. */
  function DescribeMulti(values: Option<seq<string>>, meanings: map<string, string>): (r: string)
    ensures (values.None? || |values.value| == 0) ==> r == NotSelected
  {
    if values.None? || |values.value| == 0 then NotSelected
    else Join(DescribedAll(values.value, meanings), ", ")
  }

  /**
   * One answer reads the same either way, an unknown code is marked as
   * undescribed, and every further answer adds ", " and its description.
   */
  lemma DescribeAgree(value: string, rest: seq<string>, meanings: map<string, string>)
    requires |value| > 0
    ensures DescribeSingle(Some(value), meanings) == DescribeMulti(Some([value]), meanings)
    ensures value !in meanings ==> DescribeSingle(Some(value), meanings) == value + " (" + NoDescription + ")"
    ensures |rest| > 0 ==>
      (DescribeMulti(Some([value] + rest), meanings) == Described(value, meanings) + ", " + DescribeMulti(Some(rest), meanings))
  {
    if |rest| > 0 {
      var all := DescribedAll([value] + rest, meanings);
      assert all[1..] == DescribedAll(rest, meanings);
    }
  }

  // ---------------------------------------------------------------------------
  // Normalising the picks

  /** An entry of `recommended_destinations`: a name, an object with an optional string `region_name`, or anything else. */
  datatype Pick = NamePick(name: string) | RecordPick(regionName: Option<string>) | OtherPick

  function PickName(p: Pick): Option<string>
  {
    match p
    case NamePick(name) => Some(name)
    case RecordPick(name) => name
    case OtherPick => None
  }

  function CandidateNames(candidates: seq<string>): set<string>
  {
    set c | c in candidates
  }

  /** The names of the picks that are candidates, in the reply's order, repeats included. */
  function ValidNames(items: seq<Pick>, names: set<string>): (r: seq<string>)
    ensures forall k :: 0 <= k < |r| ==> r[k] in names
    decreases |items|
  {
    if |items| == 0 then []
    else
      var n := PickName(items[|items| - 1]);
      ValidNames(items[..|items| - 1], names) + (if n.Some? && n.value in names then [n.value] else [])
  }

  predicate AllDistinct(s: seq<string>)
  {
    forall i, j :: 0 <= i < j < |s| ==> s[i] != s[j]
  }

  /** The first occurrences in `xs` of the names not already in `prior`, in order. */
  function Distinct(prior: seq<string>, xs: seq<string>): (r: seq<string>)
    ensures |r| <= |xs|
    decreases |xs|
  {
    if |xs| == 0 then []
    else
      var r := Distinct(prior, xs[..|xs| - 1]);
      var x := xs[|xs| - 1];
      if x in prior || x in r then r else r + [x]
  }

  /**
   * The scan keeps each name of `xs` not in `prior` exactly once: its names
   * come from `xs`, avoid `prior`, are distinct, and miss none.
   */
  lemma {:induction false} DistinctSpec(prior: seq<string>, xs: seq<string>)
    ensures forall k :: 0 <= k < |Distinct(prior, xs)| ==> Distinct(prior, xs)[k] in xs && Distinct(prior, xs)[k] !in prior
    ensures AllDistinct(Distinct(prior, xs))
    ensures forall x :: x in xs && x !in prior ==> x in Distinct(prior, xs)
    decreases |xs|
  {
    if |xs| > 0 {
      var init := xs[..|xs| - 1];
      DistinctSpec(prior, init);
      assert xs == init + [xs[|xs| - 1]];
    }
  }

  /** The LLM's own picks that are kept: its distinct valid names, at most five. */
  function LlmPicks(items: Option<seq<Pick>>, candidates: seq<string>): seq<string>
  {
    PyList.Take(Distinct([], ValidNames(items.GetOr([]), CandidateNames(candidates))), SelectionSize)
  }

  /**
   * What `_normalize_result` returns: the LLM's picks, then the remaining
   * candidates in their order, up to five; `None` for the
   * `INSUFFICIENT_DESTINATIONS` error of a list left short.
   */
  function NormalizedOf(items: Option<seq<Pick>>, candidates: seq<string>): Option<seq<string>>
  {
    var first := LlmPicks(items, candidates);
    var all := first + PyList.Take(Distinct(first, candidates), SelectionSize - |first|);
    if |all| < SelectionSize then None else Some(all)
  }

  lemma {:induction false} DistinctCard(s: seq<string>)
    requires AllDistinct(s)
    ensures |set x | x in s| == |s|
    decreases |s|
  {
    if |s| > 0 {
      var init := s[..|s| - 1];
      DistinctCard(init);
      assert (set x | x in s) == (set x | x in init) + {s[|s| - 1]};
    }
  }

  /** A longer list of names yields a longer scan with the same beginning. */
  lemma {:induction false} DistinctPrefix(prior: seq<string>, a: seq<string>, b: seq<string>)
    requires a <= b
    ensures Distinct(prior, a) <= Distinct(prior, b)
    decreases |b|
  {
    if |a| < |b| {
      var init := b[..|b| - 1];
      assert a <= init;
      DistinctPrefix(prior, a, init);
    } else {
      assert a == b;
    }
  }

  /** Scanning past the names already taken leaves exactly the candidates not yet taken. */
  lemma DistinctRestCount(first: seq<string>, candidates: seq<string>)
    requires AllDistinct(first) && forall k :: 0 <= k < |first| ==> first[k] in candidates
    ensures |Distinct(first, candidates)| + |first| == |CandidateNames(candidates)|
  {
    var names := CandidateNames(candidates);
    var d := Distinct(first, candidates);
    DistinctSpec(first, candidates);
    var firstSet := set x | x in first;
    var dSet := set x | x in d;
    forall x ensures x in dSet <==> x in names && x !in firstSet {
    }
    assert dSet * firstSet == {};
    assert names == dSet + firstSet;
    DistinctCard(first);
    DistinctCard(d);
  }

  /** Two distinct lists with nothing in common join to a distinct list. */
  lemma DistinctJoin(a: seq<string>, b: seq<string>)
    requires AllDistinct(a) && AllDistinct(b) && forall k :: 0 <= k < |b| ==> b[k] !in a
    ensures AllDistinct(a + b)
  {
    forall i, j | 0 <= i < j < |a + b| ensures (a + b)[i] != (a + b)[j] {
      if i >= |a| {
        assert (a + b)[i] == b[i - |a|] && (a + b)[j] == b[j - |a|];
      } else if j >= |a| {
        assert (a + b)[j] == b[j - |a|];
      }
    }
  }

  /** The LLM's picks are at most five distinct candidates. */
  lemma LlmPicksShape(items: Option<seq<Pick>>, candidates: seq<string>)
    ensures |LlmPicks(items, candidates)| <= SelectionSize && AllDistinct(LlmPicks(items, candidates))
    ensures forall j :: 0 <= j < |LlmPicks(items, candidates)| ==> LlmPicks(items, candidates)[j] in candidates
  {
    var d := Distinct([], ValidNames(items.GetOr([]), CandidateNames(candidates)));
    DistinctSpec([], ValidNames(items.GetOr([]), CandidateNames(candidates)));
    var p := LlmPicks(items, candidates);
    assert p == d[..|p|];
    forall j | 0 <= j < |p| ensures p[j] in candidates {
      assert p[j] == d[j];
    }
  }

  /**
   * When the LLM's picks are fewer than five, every candidate the reply
   * named is among them.
   */
  lemma LlmPicksComplete(items: seq<Pick>, candidates: seq<string>, k: nat)
    requires k < |items| && PickName(items[k]).Some? && PickName(items[k]).value in candidates
    requires |LlmPicks(Some(items), candidates)| < SelectionSize
    ensures PickName(items[k]).value in LlmPicks(Some(items), candidates)
  {
    ValidNamesHas(items, CandidateNames(candidates), k);
    DistinctSpec([], ValidNames(items, CandidateNames(candidates)));
  }

  lemma {:induction false} ValidNamesHas(items: seq<Pick>, names: set<string>, k: nat)
    requires k < |items| && PickName(items[k]).Some? && PickName(items[k]).value in names
    ensures PickName(items[k]).value in ValidNames(items, names)
    decreases |items|
  {
    if k < |items| - 1 {
      assert items[..|items| - 1][k] == items[k];
      ValidNamesHas(items[..|items| - 1], names, k);
    }
  }

  /** The valid names of a prefix of the reply begin its valid names. */
  lemma {:induction false} ValidNamesPrefix(items: seq<Pick>, names: set<string>, i: nat)
    requires i <= |items|
    ensures ValidNames(items[..i], names) <= ValidNames(items, names)
    decreases |items|
  {
    if i < |items| {
      var init := items[..|items| - 1];
      assert init[..i] == items[..i];
      ValidNamesPrefix(init, names, i);
    } else {
      assert items[..i] == items;
    }
  }

  /**
   * The normalised list exists exactly when there are at least five
   * distinct candidates; it then holds five distinct candidates and starts
   * with the LLM's own picks.
   */
  lemma NormalizedSpec(items: Option<seq<Pick>>, candidates: seq<string>)
    ensures NormalizedOf(items, candidates).Some? <==> |CandidateNames(candidates)| >= SelectionSize
    ensures NormalizedOf(items, candidates).Some? ==>
      (var r := NormalizedOf(items, candidates).value;
       |r| == SelectionSize && AllDistinct(r) && (forall k :: 0 <= k < |r| ==> r[k] in candidates)
       && LlmPicks(items, candidates) <= r)
  {
    hide Distinct, ValidNames, CandidateNames, AllDistinct;
    var first := LlmPicks(items, candidates);
    var d := Distinct(first, candidates);
    DistinctSpec(first, candidates);
    var rest := PyList.Take(d, SelectionSize - |first|);
    LlmPicksShape(items, candidates);
    DistinctRestCount(first, candidates);
    assert rest == d[..|rest|];
    DistinctJoin(first, rest);
    var all := first + rest;
    forall k | 0 <= k < |all| ensures all[k] in candidates {
      if k >= |first| { assert all[k] == d[k - |first|]; }
    }
  }

  /** One more entry of the reply adds its name when it is a valid candidate not taken yet. */
  lemma ReplyStep(raw: seq<Pick>, names: set<string>, i: nat)
    requires i < |raw|
    ensures var taken := Distinct([], ValidNames(raw[..i], names));
      var n := PickName(raw[i]);
      Distinct([], ValidNames(raw[..i + 1], names))
        == if n.Some? && n.value in names && n.value !in taken then taken + [n.value] else taken
  {
    assert raw[..i + 1][..i] == raw[..i] && raw[..i + 1][i] == raw[i];
    var valid := ValidNames(raw[..i], names);
    var n := PickName(raw[i]);
    if n.Some? && n.value in names {
      assert ValidNames(raw[..i + 1], names) == valid + [n.value];
      assert (valid + [n.value])[..|valid|] == valid;
    } else {
      assert ValidNames(raw[..i + 1], names) == valid + [];
      assert valid + [] == valid;
    }
  }

  /** Phase one of `_normalize_result`: the reply's valid, new names, until five are taken. */
  method PickFromReply(raw: seq<Pick>, names: set<string>) returns (normalized: seq<string>, used: set<string>)
    ensures normalized == PyList.Take(Distinct([], ValidNames(raw, names)), SelectionSize)
    ensures forall x :: x in used <==> x in normalized
  {
    used := {};
    normalized := [];
    var i := 0;
    assert Distinct([], ValidNames(raw[..i], names)) == [];
    hide Distinct, ValidNames;
    while i < |raw| && |normalized| < SelectionSize
      invariant 0 <= i <= |raw|
      invariant normalized == Distinct([], ValidNames(raw[..i], names))
      invariant |normalized| <= SelectionSize
      invariant forall x :: x in used <==> x in normalized
    {
      ReplyStep(raw, names, i);
      var name := PickName(raw[i]);
      if name.Some? && name.value in names && name.value !in used {
        used := used + {name.value};
        normalized := normalized + [name.value];
      }
      i := i + 1;
    }
    if i == |raw| {
      assert raw[..i] == raw;
    } else {
      ValidNamesPrefix(raw, names, i);
      DistinctPrefix([], ValidNames(raw[..i], names), ValidNames(raw, names));
    }
  }

  /** Phase two of `_normalize_result`: the candidates not yet used, in their order, until five are taken. */
  method FillFromCandidates(first: seq<string>, used0: set<string>, candidates: seq<string>)
    returns (normalized: seq<string>)
    requires |first| <= SelectionSize && forall x :: x in used0 <==> x in first
    ensures normalized == first + PyList.Take(Distinct(first, candidates), SelectionSize - |first|)
  {
    var used := used0;
    normalized := first;
    var j := 0;
    while j < |candidates| && |normalized| < SelectionSize
      invariant 0 <= j <= |candidates|
      invariant normalized == first + Distinct(first, candidates[..j])
      invariant |normalized| <= SelectionSize
      invariant forall x :: x in used <==> x in normalized
    {
      assert candidates[..j + 1][..j] == candidates[..j];
      var name := candidates[j];
      if name !in used {
        used := used + {name};
        normalized := normalized + [name];
      }
      j := j + 1;
    }
    if j == |candidates| {
      assert candidates[..j] == candidates;
    } else {
      DistinctPrefix(first, candidates[..j], candidates);
    }
    assert normalized[|first|..] == PyList.Take(Distinct(first, candidates), SelectionSize - |first|);
    assert normalized == first + normalized[|first|..];
  }

  /** `_normalize_result`: both phases, then the `INSUFFICIENT_DESTINATIONS` check. */
  method NormalizeResult(items: Option<seq<Pick>>, candidates: seq<string>) returns (r: Option<seq<string>>)
    ensures r == NormalizedOf(items, candidates)
  {
    hide Distinct, ValidNames, CandidateNames, AllDistinct;
    var first, used := PickFromReply(items.GetOr([]), CandidateNames(candidates));
    LlmPicksShape(items, candidates);
    var normalized := FillFromCandidates(first, used, candidates);
    if |normalized| < SelectionSize {
      return None;
    }
    return Some(normalized);
  }

  // ---------------------------------------------------------------------------
  // The callback endpoint

  const CamelPlaceholder: string := "{jobId}"
  const SnakePlaceholder: string := "{job_id}"
  const Slash: char := '/'
  const Surveys: string := "surveys"
  const CallbackWord: string := "callback"
  const ResultWord: string := "result"

  /** `f"{prefix}/surveys/{job_id}/result"`. */
  function WithResultPath(prefix: string, jobId: string): string
  {
    prefix + [Slash] + Surveys + [Slash] + jobId + [Slash] + ResultWord
  }

  /** `f"/surveys/{job_id}/result"`. */
  function ResultPath(jobId: string): string
  {
    WithResultPath([], jobId)
  }

  /**
   * `_build_callback_url`: without trailing slashes, a placeholder is filled
   * in with the job id; a base already ending in the job's result path is
   * kept; a `/surveys/callback` base has `/callback` replaced by the job's
   * path; any other base gets the result path appended.
   */
  function BuildCallbackUrl(baseUrl: string, jobId: string): string
  {
    var callback := RStripChar(baseUrl, '/');
    if Contains(callback, CamelPlaceholder) then ReplaceAll(callback, CamelPlaceholder, jobId)
    else if Contains(callback, SnakePlaceholder) then ReplaceAll(callback, SnakePlaceholder, jobId)
    else if EndsWith(callback, ResultPath(jobId)) then callback
    else if EndsWith(callback, [Slash] + Surveys + [Slash] + CallbackWord) then
      callback[..|callback| - |CallbackWord| - 1] + [Slash] + jobId + [Slash] + ResultWord
    else WithResultPath(callback, jobId)
  }

  lemma WithResultPathEnds(prefix: string, jobId: string)
    ensures WithResultPath(prefix, jobId) == prefix + ResultPath(jobId)
    ensures EndsWith(WithResultPath(prefix, jobId), ResultPath(jobId))
  {
    var r := WithResultPath(prefix, jobId);
    assert [] + [Slash] == [Slash];
    assert r[|prefix|..] == ResultPath(jobId);
  }

  /** A text ending in `/surveys/callback` without its last nine characters ends in `/surveys`. */
  lemma CallbackSuffix(s: string)
    requires EndsWith(s, [Slash] + Surveys + [Slash] + CallbackWord)
    ensures s[..|s| - |CallbackWord| - 1] == s[..|s| - |CallbackWord| - |Surveys| - 2] + [Slash] + Surveys
  {
    var n := |s| - |CallbackWord| - |Surveys| - 2;
    assert s[n..] == [Slash] + Surveys + [Slash] + CallbackWord;
    assert s[..|s| - |CallbackWord| - 1] == s[..n] + s[n..][..|Surveys| + 1];
  }

  lemma PrefixOfPrefix(s: string, t: string, k: nat)
    requires |t| <= |s| && t == s[..|t|] && k <= |t|
    ensures t[..k] == s[..k]
  {
  }

  lemma NoPlaceholderIn(s: string, k: nat, p: string)
    requires k <= |s| && !Contains(s, p)
    ensures !Contains(s[..k], p)
  {
    assert s == s[..k] + s[k..];
    if Contains(s[..k], p) { ContainsExtend(s[..k], s[k..], p); }
  }

  /**
   * The endpoint built from a base without placeholders: the base without
   * its trailing slashes when that already ends in the job's result path,
   * else the result path after a piece of the base.
   */
  lemma CallbackUrlShape(baseUrl: string, jobId: string)
    requires !Contains(baseUrl, CamelPlaceholder) && !Contains(baseUrl, SnakePlaceholder)
    ensures EndsWith(BuildCallbackUrl(baseUrl, jobId), ResultPath(jobId))
    ensures BuildCallbackUrl(baseUrl, jobId) == RStripChar(baseUrl, '/')
            || exists k :: 0 <= k <= |baseUrl| && BuildCallbackUrl(baseUrl, jobId) == WithResultPath(baseUrl[..k], jobId)
  {
    var callback := RStripChar(baseUrl, '/');
    NoPlaceholderIn(baseUrl, |callback|, CamelPlaceholder);
    NoPlaceholderIn(baseUrl, |callback|, SnakePlaceholder);
    var r := BuildCallbackUrl(baseUrl, jobId);
    if EndsWith(callback, ResultPath(jobId)) {
      assert r == callback;
    } else if EndsWith(callback, [Slash] + Surveys + [Slash] + CallbackWord) {
      CallbackSuffix(callback);
      var k := |callback| - |CallbackWord| - |Surveys| - 2;
      PrefixOfPrefix(baseUrl, callback, k);
      assert r == WithResultPath(baseUrl[..k], jobId);
      WithResultPathEnds(baseUrl[..k], jobId);
    } else {
      assert callback == baseUrl[..|callback|];
      WithResultPathEnds(callback, jobId);
    }
  }

  /** Neither placeholder occurs after a result path is added to a text and an id that hold none. */
  lemma NoPlaceholderAround(prefix: string, jobId: string, p: string)
    requires p == CamelPlaceholder || p == SnakePlaceholder
    requires !Contains(prefix, p) && !Contains(jobId, p)
    ensures !Contains(WithResultPath(prefix, jobId), p)
  {
    assert '{' !in ResultWord && '{' !in Surveys && p[0] == '{' && Slash !in p;
    if Contains(ResultWord, p) { FirstCharIn(ResultWord, p); }
    if Contains(Surveys, p) { FirstCharIn(Surveys, p); }
    ContainsAcross(prefix, Slash, Surveys, p);
    ContainsAcross(prefix + [Slash] + Surveys, Slash, jobId, p);
    ContainsAcross(prefix + [Slash] + Surveys + [Slash] + jobId, Slash, ResultWord, p);
  }

  /** For a base and a job id without placeholders, building the endpoint again changes nothing. */
  lemma CallbackUrlIdempotent(baseUrl: string, jobId: string)
    requires !Contains(baseUrl, CamelPlaceholder) && !Contains(baseUrl, SnakePlaceholder)
    requires !Contains(jobId, CamelPlaceholder) && !Contains(jobId, SnakePlaceholder)
    ensures BuildCallbackUrl(BuildCallbackUrl(baseUrl, jobId), jobId) == BuildCallbackUrl(baseUrl, jobId)
  {
    CallbackUrlShape(baseUrl, jobId);
    var callback := RStripChar(baseUrl, '/');
    NoPlaceholderIn(baseUrl, |callback|, CamelPlaceholder);
    NoPlaceholderIn(baseUrl, |callback|, SnakePlaceholder);
    var r := BuildCallbackUrl(baseUrl, jobId);
    if r != callback {
      var k :| 0 <= k <= |baseUrl| && r == WithResultPath(baseUrl[..k], jobId);
      NoPlaceholderIn(baseUrl, k, CamelPlaceholder);
      NoPlaceholderIn(baseUrl, k, SnakePlaceholder);
      NoPlaceholderAround(baseUrl[..k], jobId, CamelPlaceholder);
      NoPlaceholderAround(baseUrl[..k], jobId, SnakePlaceholder);
    }
    assert r[|r| - 1] == ResultPath(jobId)[|ResultPath(jobId)| - 1] == 't';
  }

  lemma {:induction false} FirstCharIn(s: string, p: string)
    requires |p| > 0 && Contains(s, p)
    ensures p[0] in s
    decreases |s|
  {
    if !StartsWith(s, p) {
      FirstCharIn(s[1..], p);
    }
  }

  // ---------------------------------------------------------------------------
  // The worker

  const LlmTimeoutCode: string := "LLM_TIMEOUT"
  const TimeoutMessage: string := "Analysis took too long to complete."
  const PipelineErrorCode: string := "PIPELINE_ERROR"
  const InsufficientDestinations: string := "INSUFFICIENT_DESTINATIONS"
  /** The message a failure carries when internal errors are not to be exposed. */
  const HiddenPipelineError: string := "추천 처리 중 내부 오류가 발생했습니다."

  /** How the pipeline ended: five destinations, the deadline, or an exception with its text. */
  datatype Outcome = Finished(destinations: seq<string>) | DeadlinePassed | Raised(message: string)

  /** The callback payload: `SUCCESS` with the destinations, or `FAILED` with a code and a message. */
  datatype Payload = Success(destinations: seq<string>) | Failure(code: string, message: string)

  /** What is posted: the endpoint, the payload and the headers. */
  datatype CallbackRequest = CallbackRequest(url: string, payload: Payload, headers: map<string, string>)

  /**
   * `run_recommendation_pipeline` under its deadline: `reply` is the LLM's
   * content (`None` when the call raised), `parse` is `json.loads` with the
   * `recommended_destinations` lookup (`None` when it raised, an inner
   * `None` when the field is missing or not a list), and `errorText` is the
   * text of whichever exception the call or the parser raised.
   */
  function RunPipeline(timedOut: bool, reply: Option<string>, parse: string -> Option<Option<seq<Pick>>>,
                       candidates: seq<string>, errorText: string): (o: Outcome)
  {
    if timedOut then DeadlinePassed
    else if reply.None? then Raised(errorText)
    else
      var parsed := parse(StripMarkdownFence(reply.value));
      if parsed.None? then Raised(errorText)
      else
        var normalized := NormalizedOf(parsed.value, candidates);
        if normalized.None? then Raised(InsufficientDestinations) else Finished(normalized.value)
  }

  /**
   * The pipeline as written: `_normalize_result` builds its result without
   * the `analysis_summary` field the result schema requires, so the
   * validation error, with its text `validationText`, replaces every
   * finished run.
   */
  function RunPipelineAsWritten(timedOut: bool, reply: Option<string>, parse: string -> Option<Option<seq<Pick>>>,
                                candidates: seq<string>, errorText: string, validationText: string): (o: Outcome)
    ensures !o.Finished?
  {
    match RunPipeline(timedOut, reply, parse, candidates, errorText)
    case Finished(_) => Raised(validationText)
    case other => other
  }

  /**
   * The payload for an outcome as `process_recommend_request` builds it:
   * `LLM_TIMEOUT` for the deadline, `PIPELINE_ERROR` with the exception's
   * text otherwise, whatever `EXPOSE_INTERNAL_ERRORS` says.
   */
  function PayloadOf(o: Outcome): (p: Payload)
    ensures p.Success? <==> o.Finished?
    ensures o.DeadlinePassed? <==> p == Failure(LlmTimeoutCode, TimeoutMessage)
    ensures o.Raised? ==> p == Failure(PipelineErrorCode, o.message)
  {
    match o
    case Finished(destinations) => Success(destinations)
    case DeadlinePassed => Failure(LlmTimeoutCode, TimeoutMessage)
    case Raised(message) => Failure(PipelineErrorCode, message)
  }

  /** As written, the exception's text reaches the callback even with internal errors hidden. */
  lemma AsWrittenLeaksErrorText()
    ensures PayloadOf(Raised("sensitive: internal detail")).message == "sensitive: internal detail"
    ensures PayloadOf(Raised("sensitive: internal detail")).message != HiddenPipelineError
  {
  }

  /**
   * The payload with `EXPOSE_INTERNAL_ERRORS` honoured, as the application's
   * other exception handler does: an exception's text is only sent when the
   * setting allows it, and the fixed message takes its place otherwise.
   */
  function PayloadFor(o: Outcome, exposeInternalErrors: bool): (p: Payload)
    ensures p.Success? <==> o.Finished?
    ensures o.Finished? ==> p.destinations == o.destinations
    ensures o.DeadlinePassed? <==> p == Failure(LlmTimeoutCode, TimeoutMessage)
    ensures o.Raised? ==> p.Failure? && p.code == PipelineErrorCode
  {
    if o.Raised? && !exposeInternalErrors then Failure(PipelineErrorCode, HiddenPipelineError) else PayloadOf(o)
  }

  /**
   * With internal errors hidden a failed run's message is the fixed one and
   * does not depend on the exception's text; with them exposed the payload
   * is the one the code as written sends.
   */
  lemma PayloadHidesErrorText(o: Outcome, message: string)
    ensures o.Raised? ==> PayloadFor(o, false) == PayloadFor(Raised(message), false)
                          && PayloadFor(o, false).message == HiddenPipelineError
    ensures PayloadFor(o, true) == PayloadOf(o)
    ensures !o.Raised? ==> PayloadFor(o, false) == PayloadOf(o)
  {
  }

  /** `_post_callback`'s headers: the service secret when one is configured. */
  function HeadersOf(serviceSecret: string): (h: map<string, string>)
    ensures |serviceSecret| > 0 <==> "x-service-secret" in h
    ensures "x-service-secret" in h ==> h["x-service-secret"] == serviceSecret
  {
    if |serviceSecret| > 0 then map["x-service-secret" := serviceSecret] else map[]
  }

  /** The one callback `process_recommend_request` posts. */
  function RecommendCallback(jobId: string, callbackUrl: string, serviceSecret: string, exposeInternalErrors: bool,
                             o: Outcome): CallbackRequest
  {
    CallbackRequest(BuildCallbackUrl(callbackUrl, jobId), PayloadFor(o, exposeInternalErrors), HeadersOf(serviceSecret))
  }

  /**
   * A successful callback carries five distinct candidates, starting with
   * the LLM's own picks, and a full pipeline succeeds exactly when there
   * are five distinct candidates to choose from.
   */
  lemma SuccessCarriesFive(timedOut: bool, reply: Option<string>, parse: string -> Option<Option<seq<Pick>>>,
                           candidates: seq<string>, errorText: string, exposeInternalErrors: bool)
    ensures var p := PayloadFor(RunPipeline(timedOut, reply, parse, candidates, errorText), exposeInternalErrors);
      p.Success? ==> |p.destinations| == SelectionSize && AllDistinct(p.destinations)
                     && forall k :: 0 <= k < |p.destinations| ==> p.destinations[k] in candidates
    ensures !timedOut && reply.Some? && parse(StripMarkdownFence(reply.value)).Some? ==>
      (PayloadFor(RunPipeline(timedOut, reply, parse, candidates, errorText), exposeInternalErrors).Success?
       <==> |CandidateNames(candidates)| >= SelectionSize)
  {
    if !timedOut && reply.Some? && parse(StripMarkdownFence(reply.value)).Some? {
      NormalizedSpec(parse(StripMarkdownFence(reply.value)).value, candidates);
    }
  }

  /**
   * Fewer than five distinct candidates fail the run with
   * `INSUFFICIENT_DESTINATIONS`, which the callback shows only when internal
   * errors are exposed.
   */
  lemma TooFewCandidates(reply: string, parse: string -> Option<Option<seq<Pick>>>, candidates: seq<string>, errorText: string,
                         exposeInternalErrors: bool)
    requires parse(StripMarkdownFence(reply)).Some? && |CandidateNames(candidates)| < SelectionSize
    ensures PayloadFor(RunPipeline(false, Some(reply), parse, candidates, errorText), exposeInternalErrors)
      == Failure(PipelineErrorCode, if exposeInternalErrors then InsufficientDestinations else HiddenPipelineError)
  {
    NormalizedSpec(parse(StripMarkdownFence(reply)).value, candidates);
  }

  /** As written, no run reports success: every callback is a failure. */
  lemma AsWrittenNeverSucceeds(timedOut: bool, reply: Option<string>, parse: string -> Option<Option<seq<Pick>>>,
                               candidates: seq<string>, errorText: string, validationText: string)
    ensures PayloadOf(RunPipelineAsWritten(timedOut, reply, parse, candidates, errorText, validationText)).Failure?
  {
  }

  /**
   * `process_recommend_request`: the pipeline under its deadline, then
   * exactly one delivery of its callback, with the callback timeout of the
   * policy and the retry settings given. The worker is the corrected one of
   * both defects noted above: its pipeline finishes with the five
   * destinations (`RunPipeline`, not `RunPipelineAsWritten`), and its
   * payload honours `EXPOSE_INTERNAL_ERRORS` (`PayloadFor`, not `PayloadOf`).
   */
  method ProcessRecommendRequest(jobId: string, callbackUrl: string, serviceSecret: string,
                                 timeouts: TimeoutPolicy.TimeoutSettings,
                                 exposeInternalErrors: bool, timedOut: bool, reply: Option<string>, parse: string -> Option<Option<seq<Pick>>>,
                                 candidates: seq<string>, errorText: string,
                                 maxRetries: int, baseSeconds: real, maxSeconds: real,
                                 post: (CallbackRequest, (real, real), int) -> CallbackDelivery.SendOutcome)
    returns (request: CallbackRequest, delivered: bool, sends: nat, sleeps: seq<real>)
    ensures request == RecommendCallback(jobId, callbackUrl, serviceSecret, exposeInternalErrors,
                                         RunPipeline(timedOut, reply, parse, candidates, errorText))
    ensures CallbackDelivery.Delivery(delivered, sends, sleeps)
      == CallbackDelivery.Deliver(CallbackDelivery.RetryConfigOf(maxRetries, baseSeconds, maxSeconds),
                                  CallbackDelivery.Posting(request, TimeoutPolicy.BuildTimeoutPolicy(timeouts).callbackTimeout, post))
  {
    var policy := TimeoutPolicy.BuildTimeoutPolicy(timeouts);
    var endpoint := BuildCallbackUrl(callbackUrl, jobId);
    var outcome: Outcome;
    if timedOut {
      outcome := DeadlinePassed;
    } else if reply.None? {
      outcome := Raised(errorText);
    } else {
      var parsed := parse(StripMarkdownFence(reply.value));
      if parsed.None? {
        outcome := Raised(errorText);
      } else {
        var normalized := NormalizeResult(parsed.value, candidates);
        outcome := if normalized.None? then Raised(InsufficientDestinations) else Finished(normalized.value);
      }
    }
    request := CallbackRequest(endpoint, PayloadFor(outcome, exposeInternalErrors), HeadersOf(serviceSecret));
    delivered, sends, sleeps := CallbackDelivery.PostCallbackWithRetry(request, maxRetries, baseSeconds, maxSeconds,
                                                                       policy.callbackTimeout, post);
  }
}
