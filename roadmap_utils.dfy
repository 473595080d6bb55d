/**
 * The shared helpers of the roadmap graph (`app/graph/roadmap/utils.py`):
 * stripping a Markdown code fence from an LLM reply, the `day{d}_slot{s}`
 * slot key, and the Places search text of a skeleton slot.
 */
module RoadmapUtils {
  import opened Wrappers
  import opened PyText
  import PyList

  const Fence: string := "```"

  /** The text up to (not including) the first "```" of `s`, or all of `s`. */
  function UpToFence(s: string): (r: string)
    ensures |r| <= |s| && r == s[..|r|]
    decreases |s|
  {
    if |s| == 0 || StartsWith(s, Fence) then [] else [s[0]] + UpToFence(s[1..])
  }

  /** The piece before the first fence holds no fence. */
  lemma {:induction false} UpToFenceNoFence(s: string)
    ensures !Contains(UpToFence(s), Fence)
    decreases |s|
  {
    if |s| > 0 && !StartsWith(s, Fence) {
      var rest := UpToFence(s[1..]);
      UpToFenceNoFence(s[1..]);
      assert |rest| >= 2 ==> ([s[0]] + rest)[..3] == s[..3];
      NoFenceCons(s[0], rest);
    }
  }

  lemma NoFenceCons(c: char, t: string)
    requires !Contains(t, Fence) && !StartsWith([c] + t, Fence)
    ensures !Contains([c] + t, Fence)
  {
    assert ([c] + t)[1..] == t;
  }

  /** A string that comes back unchanged from `strip()`: empty, or non-space at both ends. */
  predicate Stripped(s: string) { |s| == 0 || (!IsSpace(s[0]) && !IsSpace(s[|s| - 1])) }

  /**
   * `strip_code_fence`: strips the text; when it opens with "```", keeps the
   * piece between the first and the second fence (stripped, and without a
   * leading `json` tag); always stripped at the end.
   */
  function StripCodeFence(text: string): (r: string)
    ensures Stripped(r)
  {
    var content := Strip(text);
    if StartsWith(content, Fence) then
      // `content.split("```")` has at least two parts, the first one empty.
      var inner := Strip(UpToFence(content[3..]));
      var untagged := if StartsWith(inner, "json") then Strip(inner[4..]) else inner;
      Strip(untagged)
    else Strip(content)
  }

  lemma StripIdempotent(s: string)
    requires Stripped(s)
    ensures Strip(s) == s
  {
    if |s| > 0 { StripNoSpace(s); }
  }

  /** A reply without a fence comes back stripped and otherwise unchanged. */
  lemma {:induction false} UnfencedStripped(text: string)
    requires !StartsWith(Strip(text), Fence)
    ensures StripCodeFence(text) == Strip(text)
  {
    StripIdempotent(Strip(text));
  }

  lemma {:induction false} NoFenceSuffix(s: string, k: nat)
    requires k <= |s| && !Contains(s, Fence)
    ensures !Contains(s[k..], Fence)
    decreases k
  {
    if k > 0 {
      assert s[1..][k - 1..] == s[k..];
      NoFenceSuffix(s[1..], k - 1);
    }
  }

  lemma {:induction false} NoFenceStart(s: string)
    requires !Contains(s, Fence)
    ensures !StartsWith(s, Fence)
  {
  }

  lemma {:induction false} LStripSuffix(s: string)
    ensures exists k :: 0 <= k <= |s| && LStrip(s) == s[k..]
    decreases |s|
  {
    if |s| > 0 && IsSpace(s[0]) {
      LStripSuffix(s[1..]);
      var k :| 0 <= k <= |s[1..]| && LStrip(s[1..]) == s[1..][k..];
      assert s[1..][k..] == s[k + 1..];
    } else {
      assert s[0..] == s;
    }
  }

  lemma {:induction false} RStripNoFence(s: string)
    requires !Contains(s, Fence)
    ensures !Contains(RStrip(s), Fence)
    decreases |s|
  {
    if |s| > 0 && IsSpace(s[|s| - 1]) {
      NoFencePrefix(s, |s| - 1);
      RStripNoFence(s[..|s| - 1]);
    }
  }

  lemma NoFencePrefix(s: string, k: nat)
    requires k <= |s| && !Contains(s, Fence)
    ensures !Contains(s[..k], Fence)
  {
    if Contains(s[..k], Fence) {
      assert s[..k] + s[k..] == s;
      ContainsExtend(s[..k], s[k..], Fence);
      assert false;
    }
  }

  lemma StripNoFence(s: string)
    requires !Contains(s, Fence)
    ensures !Contains(Strip(s), Fence)
  {
    LStripSuffix(s);
    var k :| 0 <= k <= |s| && LStrip(s) == s[k..];
    NoFenceSuffix(s, k);
    RStripNoFence(LStrip(s));
  }

  /** Applying `strip_code_fence` twice is the same as once. */
  lemma {:induction false} StripCodeFenceIdempotent(text: string)
    ensures StripCodeFence(StripCodeFence(text)) == StripCodeFence(text)
  {
    var r := StripCodeFence(text);
    var content := Strip(text);
    StripIdempotent(r);
    if StartsWith(content, Fence) {
      var inner := Strip(UpToFence(content[3..]));
      UpToFenceNoFence(content[3..]);
      StripNoFence(UpToFence(content[3..]));
      var untagged := if StartsWith(inner, "json") then Strip(inner[4..]) else inner;
      if StartsWith(inner, "json") {
        NoFenceSuffix(inner, 4);
        StripNoFence(inner[4..]);
      }
      StripNoFence(untagged);
      NoFenceStart(r);
    }
    UnfencedStripped(r);
  }

  /** The piece between two fences around a fence-free text is that text. */
  lemma FencedPiece(t: string)
    requires |t| > 0 && !Contains(t, Fence) && t[|t| - 1] != '`' && !IsSpace(t[|t| - 1])
    ensures var content := Strip(Fence + t + Fence);
            StartsWith(content, Fence) && UpToFence(content[3..]) == t
  {
    FenceWrapped(t);
    FencePiece(t);
  }

  /** A text between two fences is already stripped, opens with a fence, and continues with the text. */
  lemma FenceWrapped(t: string)
    ensures var text := Fence + t + Fence;
      Strip(text) == text && StartsWith(text, Fence) && text[3..] == t + Fence
  {
    var text := Fence + t + Fence;
    assert text[0] == '`' && text[|text| - 1] == '`';
    StripIdempotent(text);
    assert text[..3] == Fence;
    assert text[3..] == t + Fence;
  }

  /**
   * The round trip of the fence: a non-empty stripped body wrapped as
   * "```json" + body + "```" comes back exactly, provided it holds no fence
   * and does not end with a backtick.
   */
  lemma FencedJsonBody(body: string)
    requires |body| > 0 && Stripped(body) && !Contains(body, Fence) && body[|body| - 1] != '`'
    ensures StripCodeFence(Fence + "json" + body + Fence) == body
  {
    var tagged := "json" + body;
    TaggedNoFence(body);
    assert tagged[0] == 'j' && tagged[|tagged| - 1] == body[|body| - 1];
    FencedPiece(tagged);
    StripIdempotent(tagged);
    assert tagged[..4] == "json" && tagged[4..] == body;
    StripIdempotent(body);
    PyList.AppendAssoc(Fence, "json", body);
  }

  lemma TaggedNoFence(body: string)
    requires !Contains(body, Fence)
    ensures !Contains("json" + body, Fence)
  {
    assert (['n'] + body)[0] == 'n';
    NoFenceCons('n', body);
    assert "on" + body == ['o'] + ("n" + body);
    assert (['o'] + ("n" + body))[0] == 'o';
    NoFenceCons('o', "n" + body);
    assert "son" + body == ['s'] + ("on" + body);
    assert (['s'] + ("on" + body))[0] == 's';
    NoFenceCons('s', "on" + body);
    assert "json" + body == ['j'] + ("son" + body);
    assert (['j'] + ("son" + body))[0] == 'j';
    NoFenceCons('j', "son" + body);
  }

  lemma FenceNotAtStart(t: string)
    requires 0 < |t| && !Contains(t, Fence) && t[|t| - 1] != '`'
    ensures !StartsWith(t + Fence, Fence)
  {
    if |t| >= 3 {
      assert (t + Fence)[..3] == t[..3];
    } else {
      assert (t + Fence)[|t| - 1] == t[|t| - 1];
    }
  }

  lemma {:induction false} FencePiece(t: string)
    requires !Contains(t, Fence) && (|t| == 0 || t[|t| - 1] != '`')
    ensures UpToFence(t + Fence) == t
    decreases |t|
  {
    if |t| == 0 {
      assert t + Fence == Fence;
    } else {
      assert (t + Fence)[1..] == t[1..] + Fence;
      NoFenceSuffix(t, 1);
      FenceNotAtStart(t);
      FencePiece(t[1..]);
      assert [t[0]] + t[1..] == t;
    }
  }

  /** `build_slot_key(day, slot)`: `"day{day}_slot{slot}"`. */
  function BuildSlotKey(dayNumber: int, slotIndex: int): string
  {
    "day" + IntText(dayNumber) + "_slot" + IntText(slotIndex)
  }

  /** A slot key splits at its one underscore into the day part and the slot part. */
  lemma BuildSlotKeySplit(dayNumber: int, slotIndex: int)
    ensures Split(BuildSlotKey(dayNumber, slotIndex), '_') == ["day" + IntText(dayNumber), "slot" + IntText(slotIndex)]
  {
    var a := "day" + IntText(dayNumber);
    var b := "slot" + IntText(slotIndex);
    IntTextNoUnderscore(dayNumber);
    IntTextNoUnderscore(slotIndex);
    assert '_' !in a && '_' !in b;
    assert a + "_slot" + IntText(slotIndex) == a + ['_'] + b;
    SplitJoined(a, b, '_');
  }

  /** Distinct (day, slot) pairs get distinct keys: the key identifies its slot. */
  lemma SlotKeyInjective(d1: int, s1: int, d2: int, s2: int)
    requires BuildSlotKey(d1, s1) == BuildSlotKey(d2, s2)
    ensures d1 == d2 && s1 == s2
  {
    BuildSlotKeySplit(d1, s1);
    BuildSlotKeySplit(d2, s2);
    var p1 := Split(BuildSlotKey(d1, s1), '_');
    var p2 := Split(BuildSlotKey(d2, s2), '_');
    assert p1 == p2;
    assert p1[0] == "day" + IntText(d1) && p2[0] == "day" + IntText(d2);
    assert IntText(d1) == p1[0][3..] && IntText(d2) == p2[0][3..];
    assert IntText(s1) == p1[1][4..] && IntText(s2) == p2[1][4..];
    ParseIntText(d1);
    ParseIntText(d2);
    ParseIntText(s1);
    ParseIntText(s2);
  }

  /** A skeleton slot: the time-of-day section, the area and the keyword (each "" when absent). */
  datatype Slot = Slot(section: string, area: string, keyword: string)

  /** `build_search_query`: the stripped area and keyword joined by a space, stripped again. */
  function BuildSearchQuery(slot: Slot): (r: string)
    ensures Stripped(r)
  {
    Strip(Strip(slot.area) + " " + Strip(slot.keyword))
  }

  /**
   * The query is "area keyword" when both are given, and the one that is
   * given when the other is blank.
   */
  lemma SearchQueryParts(slot: Slot)
    ensures var a := Strip(slot.area); var k := Strip(slot.keyword);
            BuildSearchQuery(slot) == if |a| == 0 then k else if |k| == 0 then a else a + " " + k
  {
    var a := Strip(slot.area);
    var k := Strip(slot.keyword);
    StripIdempotent(a);
    StripIdempotent(k);
    if |a| == 0 {
      assert a + " " + k == [' '] + k;
      assert LStrip([' '] + k) == LStrip(k) by { assert ([' '] + k)[1..] == k; }
      LStripStripped(k);
    } else if |k| == 0 {
      assert a + " " + k == a + [' '];
      assert RStrip(a + [' ']) == RStrip(a) by { assert (a + [' '])[..|a|] == a; }
      assert LStrip(a + [' ']) == a + [' '];
      RStripStripped(a);
    } else {
      var t := a + " " + k;
      assert t[0] == a[0] && t[|t| - 1] == k[|k| - 1];
      StripIdempotent(t);
    }
  }

  lemma LStripStripped(k: string)
    requires Stripped(k)
    ensures RStrip(LStrip(k)) == k
  {
    StripIdempotent(k);
  }

  lemma RStripStripped(a: string)
    requires Stripped(a) && |a| > 0
    ensures RStrip(a) == a
  {
  }
}
