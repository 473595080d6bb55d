/**
 * Python `str` and `int()` semantics that the services rely on, stated over
 * `seq<char>`: whitespace stripping, splitting, substring tests, decimal
 * rendering (`str(n)`, `f"{n:02d}"`), base-10 `int(text)` parsing and the
 * truncation `int(x)` of a float.
 */
module PyText {
  import opened Wrappers

  /** The characters Python's `str.isspace` (and so `strip`/`split`) treats as white space. */
  predicate IsSpace(c: char)
  {
    c == ' ' || ('\t' <= c <= '\r') || ('\U{1C}' <= c <= '\U{1F}') || c == '\U{85}' || c == '\U{A0}'
    || c == '\U{1680}' || ('\U{2000}' <= c <= '\U{200A}') || c == '\U{2028}' || c == '\U{2029}'
    || c == '\U{202F}' || c == '\U{205F}' || c == '\U{3000}'
  }

  predicate IsDigit(c: char) { '0' <= c <= '9' }

  function LStrip(s: string): (r: string)
    ensures |r| <= |s|
    ensures |r| > 0 ==> !IsSpace(r[0])
  {
    if |s| > 0 && IsSpace(s[0]) then LStrip(s[1..]) else s
  }

  function RStrip(s: string): (r: string)
    ensures |r| <= |s|
    ensures |r| > 0 ==> r[0] == s[0] && !IsSpace(r[|r| - 1])
  {
    if |s| > 0 && IsSpace(s[|s| - 1]) then RStrip(s[..|s| - 1]) else s
  }

  /** `s.strip()`. */
  function Strip(s: string): (r: string)
    ensures |r| <= |s|
    ensures |r| > 0 ==> !IsSpace(r[0]) && !IsSpace(r[|r| - 1])
  {
    RStrip(LStrip(s))
  }

  /** A text that is empty after `strip()` — Python's `not s.strip()`. */
  predicate IsBlank(s: string) { |Strip(s)| == 0 }

  /** `s.rstrip(c)` for a single character `c`. */
  function RStripChar(s: string, c: char): (r: string)
    ensures |r| <= |s|
    ensures |r| > 0 ==> r[|r| - 1] != c
    ensures r == s[..|r|]
  {
    if |s| > 0 && s[|s| - 1] == c then RStripChar(s[..|s| - 1], c) else s
  }

  /** `s.strip(chars)` for an explicit character set. */
  function StripChars(s: string, cs: set<char>): (r: string)
    ensures |r| <= |s|
    ensures |r| > 0 ==> r[0] !in cs && r[|r| - 1] !in cs
  {
    if |s| > 0 && s[0] in cs then StripChars(s[1..], cs)
    else if |s| > 0 && s[|s| - 1] in cs then StripChars(s[..|s| - 1], cs)
    else s
  }

  function UpperChar(c: char): char { if 'a' <= c <= 'z' then (c as int - 32) as char else c }
  function LowerChar(c: char): char { if 'A' <= c <= 'Z' then (c as int + 32) as char else c }

  /** `s.upper()` on the ASCII letters. */
  function Upper(s: string): (r: string)
    ensures |r| == |s| && forall i :: 0 <= i < |s| ==> r[i] == UpperChar(s[i])
  {
    seq(|s|, i requires 0 <= i < |s| => UpperChar(s[i]))
  }

  /** `s.lower()` on the ASCII letters. */
  function Lower(s: string): (r: string)
    ensures |r| == |s| && forall i :: 0 <= i < |s| ==> r[i] == LowerChar(s[i])
  {
    seq(|s|, i requires 0 <= i < |s| => LowerChar(s[i]))
  }

  lemma {:induction false} LowerAppend(a: string, b: string)
    ensures Lower(a + b) == Lower(a) + Lower(b)
  {
    assert forall i :: 0 <= i < |a + b| ==> Lower(a + b)[i] == (Lower(a) + Lower(b))[i];
  }

  predicate StartsWith(s: string, p: string) { |p| <= |s| && s[..|p|] == p }
  predicate EndsWith(s: string, p: string) { |p| <= |s| && s[|s| - |p|..] == p }

  /** `p in s` for strings: `p` occurs as a contiguous piece of `s`. */
  predicate Contains(s: string, p: string)
    decreases |s|
  {
    StartsWith(s, p) || (|s| > 0 && Contains(s[1..], p))
  }

  lemma {:induction false} ContainsAt(s: string, p: string)
    ensures Contains(s, p) <==> exists i :: 0 <= i <= |s| && StartsWith(s[i..], p)
    decreases |s|
  {
    if StartsWith(s, p) { assert s[0..] == s; }
    if |s| > 0 {
      ContainsAt(s[1..], p);
      if Contains(s[1..], p) {
        var i :| 0 <= i <= |s[1..]| && StartsWith(s[1..][i..], p);
        assert s[1..][i..] == s[i + 1..];
      }
      if exists i :: 0 <= i <= |s| && StartsWith(s[i..], p) {
        var i :| 0 <= i <= |s| && StartsWith(s[i..], p);
        if i > 0 { assert s[1..][i - 1..] == s[i..]; } else { assert s[0..] == s; }
      }
    } else {
      assert s[0..] == s;
    }
  }

  /** An occurrence in a text is one in every extension of it. */
  lemma {:induction false} ContainsExtend(a: string, b: string, p: string)
    requires Contains(a, p)
    ensures Contains(a + b, p)
    decreases |a|
  {
    if StartsWith(a, p) {
      assert (a + b)[..|p|] == a[..|p|];
    } else {
      assert (a + b)[1..] == a[1..] + b;
      ContainsExtend(a[1..], b, p);
    }
  }

  /** A text shorter than the piece cannot hold it. */
  lemma {:induction false} ContainsShort(s: string, p: string)
    requires |s| < |p|
    ensures !Contains(s, p)
    decreases |s|
  {
    if |s| > 0 { ContainsShort(s[1..], p); }
  }

  /**
   * A piece without the character `c` that occurs in neither side of
   * `a + [c] + b` does not occur in it either.
   */
  lemma {:induction false} ContainsAcross(a: string, c: char, b: string, p: string)
    requires |p| > 0 && c !in p && !Contains(a, p) && !Contains(b, p)
    ensures !Contains(a + [c] + b, p)
    decreases |a|
  {
    var s := a + [c] + b;
    if |a| == 0 {
      assert s == [c] + b;
      assert s[1..] == b;
      assert p[0] != s[0];
    } else {
      if |p| <= |a| {
        assert s[..|p|] == a[..|p|];
      } else {
        assert s[|a|] == c && p[|a|] != c;
      }
      assert s[1..] == a[1..] + [c] + b;
      ContainsAcross(a[1..], c, b, p);
    }
  }

  lemma {:induction false} ContainsPrefix(s: string, p: string)
    requires StartsWith(s, p)
    ensures Contains(s, p)
  {
  }

  /** An occurrence in a text is one in every text that ends with it. */
  lemma {:induction false} ContainsAfter(a: string, b: string, p: string)
    requires Contains(b, p)
    ensures Contains(a + b, p)
    decreases |a|
  {
    if |a| > 0 {
      assert (a + b)[1..] == a[1..] + b;
      ContainsAfter(a[1..], b, p);
    } else {
      assert a + b == b;
    }
  }

  /** A piece of a piece of a text is a piece of the text. */
  lemma {:induction false} ContainsTrans(s: string, p: string, q: string)
    requires Contains(s, p) && Contains(p, q)
    ensures Contains(s, q)
  {
    ContainsAt(s, p);
    ContainsAt(p, q);
    var i :| 0 <= i <= |s| && StartsWith(s[i..], p);
    var j :| 0 <= j <= |p| && StartsWith(p[j..], q);
    assert s[i + j..][..|q|] == p[j..][..|q|] by {
      forall k | 0 <= k < |q| ensures s[i + j..][k] == p[j..][k] {
        assert s[i + j..][k] == s[i..][j + k];
      }
    }
    ContainsAt(s, q);
  }

  /** Every part occurs in the joined text. */
  lemma {:induction false} JoinContains(parts: seq<string>, sep: string, i: nat)
    requires i < |parts|
    ensures Contains(Join(parts, sep), parts[i])
    decreases |parts|
  {
    if |parts| > 1 {
      var rest := Join(parts[1..], sep);
      if i == 0 {
        assert (parts[0] + sep + rest)[..|parts[0]|] == parts[0];
      } else {
        JoinContains(parts[1..], sep, i - 1);
        assert parts[1..][i - 1] == parts[i];
        ContainsAfter(parts[0] + sep, rest, parts[i]);
      }
    } else {
      assert parts[0][..|parts[0]|] == parts[0];
    }
  }

  /** `s.replace(p, t)`: replaces the non-overlapping occurrences of `p` by `t`, scanning left to right. */
  function ReplaceAll(s: string, p: string, t: string): (r: string)
    requires |p| > 0
    ensures |t| == 0 ==> |r| <= |s|
    decreases |s|
  {
    if |s| == 0 then []
    else if StartsWith(s, p) then t + ReplaceAll(s[|p|..], p, t)
    else [s[0]] + ReplaceAll(s[1..], p, t)
  }

  lemma {:induction false} ReplaceAllAbsent(s: string, p: string, t: string)
    requires |p| > 0 && !Contains(s, p)
    ensures ReplaceAll(s, p, t) == s
    decreases |s|
  {
    if |s| > 0 { ReplaceAllAbsent(s[1..], p, t); }
  }

  /** `s.split(sep)` for a one-character separator: never empty. */
  function Split(s: string, sep: char): (r: seq<string>)
    ensures |r| >= 1
    ensures forall k :: 0 <= k < |r| ==> sep !in r[k]
    ensures |r| == 1 ==> r[0] == s
  {
    if |s| == 0 then [""]
    else if s[0] == sep then [""] + Split(s[1..], sep)
    else var rest := Split(s[1..], sep); [[s[0]] + rest[0]] + rest[1..]
  }

  lemma {:induction false} SplitJoined(a: string, b: string, sep: char)
    requires sep !in a && sep !in b
    ensures Split(a + [sep] + b, sep) == [a, b]
    decreases |a|
  {
    if |a| == 0 {
      assert a + [sep] + b == [sep] + b;
      assert ([sep] + b)[1..] == b;
      SplitNoSep(b, sep);
    } else {
      assert (a + [sep] + b)[1..] == a[1..] + [sep] + b;
      SplitJoined(a[1..], b, sep);
      assert [a[0]] + a[1..] == a;
    }
  }

  lemma {:induction false} SplitNoSep(s: string, sep: char)
    requires sep !in s
    ensures Split(s, sep) == [s]
    decreases |s|
  {
    if |s| > 0 {
      SplitNoSep(s[1..], sep);
      assert [s[0]] + s[1..] == s;
    }
  }

  /** A first piece without the separator splits off on its own. */
  lemma {:induction false} SplitCons(a: string, rest: string, sep: char)
    requires sep !in a
    ensures Split(a + [sep] + rest, sep) == [a] + Split(rest, sep)
    decreases |a|
  {
    if |a| == 0 {
      assert a + [sep] + rest == [sep] + rest;
      assert ([sep] + rest)[1..] == rest;
    } else {
      assert (a + [sep] + rest)[1..] == a[1..] + [sep] + rest;
      SplitCons(a[1..], rest, sep);
      assert [a[0]] + a[1..] == a;
    }
  }

  /** A last piece without the separator splits off on its own. */
  lemma {:induction false} SplitSnoc(b: string, c: string, sep: char)
    requires sep !in c
    ensures Split(b + [sep] + c, sep) == Split(b, sep) + [c]
    decreases |b|
  {
    if |b| == 0 {
      assert b + [sep] + c == [sep] + c;
      assert ([sep] + c)[1..] == c;
      SplitNoSep(c, sep);
    } else {
      assert (b + [sep] + c)[1..] == b[1..] + [sep] + c;
      SplitSnoc(b[1..], c, sep);
      var inner := Split(b[1..], sep);
      if b[0] != sep {
        assert (inner + [c])[0] == inner[0];
        assert (inner + [c])[1..] == inner[1..] + [c];
      }
    }
  }

  /** Joining the pieces of a split with its separator gives the text back. */
  lemma {:induction false} JoinSplit(s: string, sep: char)
    ensures Join(Split(s, sep), [sep]) == s
    decreases |s|
  {
    if |s| > 0 {
      JoinSplit(s[1..], sep);
      var rest := Split(s[1..], sep);
      if s[0] == sep {
        assert ([""] + rest)[1..] == rest;
      } else {
        var parts := [[s[0]] + rest[0]] + rest[1..];
        assert parts[1..] == rest[1..];
        if |rest| > 1 {
          assert Join(rest, [sep]) == rest[0] + [sep] + Join(rest[1..], [sep]);
        }
      }
      assert [s[0]] + s[1..] == s;
    }
  }

  /** The leading run of non-space characters of `s`. */
  function Word(s: string): (w: string)
    ensures |w| <= |s| && w == s[..|w|]
    ensures forall i :: 0 <= i < |w| ==> !IsSpace(w[i])
    ensures |w| < |s| ==> IsSpace(s[|w|])
  {
    if |s| == 0 || IsSpace(s[0]) then [] else [s[0]] + Word(s[1..])
  }

  /** `s.split()` with no separator: the maximal runs of non-space characters. */
  function Words(s: string): (r: seq<string>)
    ensures forall k :: 0 <= k < |r| ==> |r[k]| > 0 && forall i :: 0 <= i < |r[k]| ==> !IsSpace(r[k][i])
    decreases |s|
  {
    var t := LStrip(s);
    if |t| == 0 then [] else var w := Word(t); [w] + Words(t[|w|..])
  }

  /** `sep.join(parts)`. */
  function Join(parts: seq<string>, sep: string): string
  {
    if |parts| == 0 then [] else if |parts| == 1 then parts[0] else parts[0] + sep + Join(parts[1..], sep)
  }

  function DigitChar(d: nat): char
    requires d < 10
  {
    ('0' as int + d) as char
  }

  function DigitValue(c: char): nat
    requires IsDigit(c)
  {
    c as int - '0' as int
  }

  /** `str(n)` for a natural number. */
  function NatText(n: nat): (r: string)
    ensures |r| >= 1 && forall i :: 0 <= i < |r| ==> IsDigit(r[i])
    ensures n < 10 ==> |r| == 1
    ensures 10 <= n < 100 ==> |r| == 2
  {
    if n < 10 then [DigitChar(n)] else NatText(n / 10) + [DigitChar(n % 10)]
  }

  /** `str(n)` for any integer. */
  function IntText(n: int): (r: string)
    ensures |r| >= 1
  {
    if n < 0 then "-" + NatText(-n) else NatText(n)
  }

  /** `f"{n:02d}"`: zero-padded to two characters; a negative number keeps its sign and is not zero-padded. */
  function Pad2(n: int): (r: string)
    ensures n >= 0 ==> |r| >= 2 && forall i :: 0 <= i < |r| ==> IsDigit(r[i])
    ensures 0 <= n < 100 ==> |r| == 2
  {
    if n < 0 then "-" + NatText(-n) else if n < 10 then "0" + NatText(n) else NatText(n)
  }

  /** The body of a base-10 integer literal as `int()` accepts it: digits, single `_` between digits. */
  predicate DigitBody(b: string)
  {
    |b| > 0 && IsDigit(b[0]) && IsDigit(b[|b| - 1])
    && (forall i :: 0 <= i < |b| ==> IsDigit(b[i]) || b[i] == '_')
    && NoDoubleUnderscore(b)
  }

  predicate NoDoubleUnderscore(b: string)
  {
    |b| < 2 || (!(b[0] == '_' && b[1] == '_') && NoDoubleUnderscore(b[1..]))
  }

  lemma {:induction false} DigitsNoUnderscore(b: string)
    requires forall i :: 0 <= i < |b| ==> IsDigit(b[i])
    ensures NoDoubleUnderscore(b)
  {
    if |b| >= 2 { DigitsNoUnderscore(b[1..]); }
  }

  /** The value of a digit body, ignoring its underscores. */
  function BodyValue(b: string): nat
    requires forall i :: 0 <= i < |b| ==> IsDigit(b[i]) || b[i] == '_'
  {
    if |b| == 0 then 0
    else if b[|b| - 1] == '_' then BodyValue(b[..|b| - 1])
    else BodyValue(b[..|b| - 1]) * 10 + DigitValue(b[|b| - 1])
  }

  /** Python's `min` and `max` on two integers. */
  function Min(a: int, b: int): (r: int)
    ensures r <= a && r <= b && (r == a || r == b)
  {
    if a <= b then a else b
  }

  function Max(a: int, b: int): (r: int)
    ensures r >= a && r >= b && (r == a || r == b)
  {
    if a >= b then a else b
  }

  /** Python's `int(text)` in base 10: `None` stands for the `ValueError`. */
  function ParseInt(s: string): (r: Option<int>)
  {
    ParseIntStripped(Strip(s))
  }

  /** `int()` after the surrounding white space is gone: an optional sign, then a digit body. */
  function ParseIntStripped(t: string): (r: Option<int>)
  {
    var signed := |t| > 0 && (t[0] == '-' || t[0] == '+');
    var body := if signed then t[1..] else t;
    if DigitBody(body) then
      var v: int := BodyValue(body);
      Some(if signed && t[0] == '-' then -v else v)
    else None
  }

  lemma {:induction false} NatTextValue(n: nat)
    ensures DigitBody(NatText(n)) && BodyValue(NatText(n)) == n
  {
    DigitsNoUnderscore(NatText(n));
    if n >= 10 {
      NatTextValue(n / 10);
      var r := NatText(n);
      assert r[..|r| - 1] == NatText(n / 10);
    }
  }

  lemma {:induction false} StripNoSpace(s: string)
    requires |s| > 0 && !IsSpace(s[0]) && !IsSpace(s[|s| - 1])
    ensures Strip(s) == s
  {
  }

  /** `str(n)` never holds an underscore. */
  lemma {:induction false} IntTextNoUnderscore(n: int)
    ensures '_' !in IntText(n)
  {
    if n < 0 { assert IntText(n) == "-" + NatText(-n); }
  }

  /** `int(str(n)) == n`. */
  lemma {:induction false} ParseIntText(n: int)
    ensures ParseInt(IntText(n)) == Some(n)
  {
    var r := IntText(n);
    if n < 0 {
      var d := NatText(-n);
      NatTextValue(-n);
      assert r == "-" + d;
      assert r[|r| - 1] == d[|d| - 1];
      StripNoSpace(r);
      assert r[1..] == d;
      ParseSigned(r, d);
    } else {
      NatTextValue(n);
      StripNoSpace(r);
      ParseUnsigned(r);
    }
  }

  lemma {:induction false} ParseSigned(t: string, body: string)
    requires |t| > 0 && t[0] == '-' && t[1..] == body && DigitBody(body) && Strip(t) == t
    ensures ParseInt(t) == Some(-(BodyValue(body) as int))
  {
    assert ParseIntStripped(t) == Some(-(BodyValue(body) as int));
  }

  lemma {:induction false} ParseUnsigned(t: string)
    requires DigitBody(t) && Strip(t) == t
    ensures ParseInt(t) == Some(BodyValue(t) as int)
  {
    assert ParseIntStripped(t) == Some(BodyValue(t) as int);
  }

  /** `int(f"{n:02d}") == n` for the non-negative numbers. */
  lemma {:induction false} ParsePad2(n: nat)
    ensures ParseInt(Pad2(n)) == Some(n)
  {
    NatTextValue(n);
    var r := Pad2(n);
    StripNoSpace(r);
    DigitsNoUnderscore(r);
    if n < 10 {
      assert r == [DigitChar(0), DigitChar(n)];
      assert r[..1] == [DigitChar(0)];
      assert BodyValue(r) == n;
      assert DigitBody(r);
    }
    ParseUnsigned(r);
  }

  /** Python's `int(x)` for a float: truncation toward zero. */
  function Trunc(x: real): (r: int)
    ensures x >= 0.0 ==> r as real <= x < r as real + 1.0
    ensures x < 0.0 ==> r as real - 1.0 < x <= r as real
  {
    if x >= 0.0 then x.Floor else -((-x).Floor)
  }
}
