/** Python list operations whose edge cases the services rely on. */
module PyList {
  /** `s[:n]` for any integer `n`: a negative `n` counts from the end. */
  function Take<T>(s: seq<T>, n: int): (r: seq<T>)
    ensures 0 <= n <= |s| ==> r == s[..n]
    ensures n > |s| ==> r == s
    ensures |r| <= |s| && r == s[..|r|]
    ensures n >= 0 ==> |r| <= n
  {
    if n >= |s| then s
    else if n >= 0 then s[..n]
    else if |s| + n >= 0 then s[..|s| + n]
    else []
  }

  /** `s.insert(i, x)` for an index inside the list or just past its end. */
  function Insert<T>(s: seq<T>, i: nat, x: T): (r: seq<T>)
    requires i <= |s|
    ensures |r| == |s| + 1 && r[i] == x
    ensures forall k :: 0 <= k < i ==> r[k] == s[k]
    ensures forall k :: i < k < |r| ==> r[k] == s[k - 1]
  {
    s[..i] + [x] + s[i..]
  }

  /** Inserting adds exactly `x` to the elements. */
  lemma InsertMultiset<T>(s: seq<T>, i: nat, x: T)
    requires i <= |s|
    ensures multiset(Insert(s, i, x)) == multiset(s) + multiset{x}
  {
    assert s == s[..i] + s[i..];
  }

  /**
   * The slot `s.insert(i, x)` uses for any integer `i` on a list of length
   * `n`: a negative `i` counts from the end, and the slot is clamped to `0..n`.
   */
  function InsertPosition(i: int, n: nat): (p: nat)
    ensures p <= n
    ensures 0 <= i <= n ==> p == i
    ensures i > n ==> p == n
    ensures i < 0 ==> p == if n + i >= 0 then n + i else 0
  {
    if i > n then n
    else if i >= 0 then i
    else if n + i >= 0 then n + i
    else 0
  }

  /** `s.pop(i)` for a valid index: the list without element `i`. */
  function RemoveAt<T>(s: seq<T>, i: nat): (r: seq<T>)
    requires i < |s|
    ensures |r| == |s| - 1
    ensures forall k :: 0 <= k < i ==> r[k] == s[k]
    ensures forall k :: i <= k < |r| ==> r[k] == s[k + 1]
  {
    s[..i] + s[i + 1..]
  }

  /** Popping removes exactly element `i` from the elements. */
  lemma RemoveAtMultiset<T>(s: seq<T>, i: nat)
    requires i < |s|
    ensures multiset(RemoveAt(s, i)) + multiset{s[i]} == multiset(s)
  {
    assert s == s[..i] + [s[i]] + s[i + 1..];
  }

  /** Popping the element just inserted gives the list back. */
  lemma RemoveInsert<T>(s: seq<T>, i: nat, x: T)
    requires i <= |s|
    ensures RemoveAt(Insert(s, i, x), i) == s
  {
    var r := RemoveAt(Insert(s, i, x), i);
    assert forall k :: 0 <= k < |s| ==> r[k] == s[k];
  }

  /** List concatenation is associative. */
  lemma AppendAssoc<T>(a: seq<T>, b: seq<T>, c: seq<T>)
    ensures a + (b + c) == (a + b) + c
  {
  }
  /** Whether `s` is ordered by `key`, smallest first. */
  predicate SortedBy<T>(s: seq<T>, key: T -> int)
  {
    forall i, j :: 0 <= i < j < |s| ==> key(s[i]) <= key(s[j])
  }

  /**
   * One step of a stable insertion sort: `x` goes before the first element
   * whose key is larger than its own, so after every element with an equal key.
   */
  function InsertBy<T>(s: seq<T>, x: T, key: T -> int): (r: seq<T>)
    ensures |r| == |s| + 1
    decreases |s|
  {
    if |s| == 0 then [x]
    else if key(x) < key(s[0]) then [x] + s
    else [s[0]] + InsertBy(s[1..], x, key)
  }

  /** Inserting adds `x` and keeps every other element. */
  lemma {:induction false} InsertByElements<T>(s: seq<T>, x: T, key: T -> int)
    ensures var r := InsertBy(s, x, key);
      multiset(r) == multiset(s) + multiset{x} && forall i :: 0 <= i < |r| ==> r[i] == x || r[i] in s
    decreases |s|
  {
    if |s| > 0 && key(x) >= key(s[0]) {
      assert s == [s[0]] + s[1..];
      InsertByElements(s[1..], x, key);
    }
  }

  /** Inserting into a sorted list keeps it sorted. */
  lemma {:induction false} InsertBySorted<T>(s: seq<T>, x: T, key: T -> int)
    requires SortedBy(s, key)
    ensures SortedBy(InsertBy(s, x, key), key)
    decreases |s|
  {
    if |s| > 0 && key(x) >= key(s[0]) {
      var rest := InsertBy(s[1..], x, key);
      InsertByElements(s[1..], x, key);
      assert SortedBy(s[1..], key) by {
        forall i, j | 0 <= i < j < |s[1..]| ensures key(s[1..][i]) <= key(s[1..][j]) {
          assert s[1..][i] == s[i + 1] && s[1..][j] == s[j + 1];
        }
      }
      InsertBySorted(s[1..], x, key);
      forall j | 0 <= j < |rest| ensures key(s[0]) <= key(rest[j]) {
        if rest[j] != x {
          var k :| 0 <= k < |s[1..]| && s[1..][k] == rest[j];
          assert s[1..][k] == s[k + 1];
        }
      }
      var r := [s[0]] + rest;
      forall i, j | 0 <= i < j < |r| ensures key(r[i]) <= key(r[j]) {
        if i > 0 {
          assert r[i] == rest[i - 1] && r[j] == rest[j - 1];
        } else {
          assert r[j] == rest[j - 1];
        }
      }
    } else if |s| > 0 {
      var r := [x] + s;
      forall i, j | 0 <= i < j < |r| ensures key(r[i]) <= key(r[j]) {
        if i > 0 {
          assert r[i] == s[i - 1] && r[j] == s[j - 1];
        } else {
          assert r[j] == s[j - 1];
        }
      }
    }
  }

  /** `sorted(s, key=key)`: a stable insertion sort by an integer key. */
  function SortBy<T>(s: seq<T>, key: T -> int): (r: seq<T>)
    ensures |r| == |s|
    decreases |s|
  {
    if |s| == 0 then [] else InsertBy(SortBy(s[..|s| - 1], key), s[|s| - 1], key)
  }

  /** The sort orders the list by its key and keeps its elements. */
  lemma {:induction false} SortBySpec<T>(s: seq<T>, key: T -> int)
    ensures SortedBy(SortBy(s, key), key)
    ensures multiset(SortBy(s, key)) == multiset(s)
    decreases |s|
  {
    if |s| > 0 {
      SortBySpec(s[..|s| - 1], key);
      InsertBySorted(SortBy(s[..|s| - 1], key), s[|s| - 1], key);
      InsertByElements(SortBy(s[..|s| - 1], key), s[|s| - 1], key);
      assert s == s[..|s| - 1] + [s[|s| - 1]];
    }
  }

  /** The elements of `s` whose key is `k`, in their order in `s`. */
  function WithKeyBy<T>(s: seq<T>, key: T -> int, k: int): (r: seq<T>)
    ensures |r| <= |s|
    decreases |s|
  {
    if |s| == 0 then [] else (if key(s[0]) == k then [s[0]] else []) + WithKeyBy(s[1..], key, k)
  }

  lemma {:induction false} WithKeyByAppend<T>(a: seq<T>, b: seq<T>, key: T -> int, k: int)
    ensures WithKeyBy(a + b, key, k) == WithKeyBy(a, key, k) + WithKeyBy(b, key, k)
    decreases |a|
  {
    if |a| == 0 {
      assert a + b == b;
    } else {
      var head := if key(a[0]) == k then [a[0]] else [];
      assert (a + b)[0] == a[0] && (a + b)[1..] == a[1..] + b;
      assert WithKeyBy(a + b, key, k) == head + WithKeyBy(a[1..] + b, key, k);
      WithKeyByAppend(a[1..], b, key, k);
      assert WithKeyBy(a, key, k) == head + WithKeyBy(a[1..], key, k);
    }
  }

  lemma {:induction false} WithKeyByNone<T>(s: seq<T>, key: T -> int, k: int)
    requires forall i :: 0 <= i < |s| ==> key(s[i]) != k
    ensures WithKeyBy(s, key, k) == []
    decreases |s|
  {
    if |s| > 0 {
      WithKeyByNone(s[1..], key, k);
    }
  }

  /** Inserting into a sorted list puts `x` after every element with its key. */
  lemma {:induction false} InsertByStable<T>(s: seq<T>, x: T, key: T -> int, k: int)
    requires SortedBy(s, key)
    ensures WithKeyBy(InsertBy(s, x, key), key, k) == WithKeyBy(s, key, k) + (if key(x) == k then [x] else [])
    decreases |s|
  {
    if |s| == 0 {
      assert [x][1..] == [];
    } else if key(x) < key(s[0]) {
      var r := [x] + s;
      assert r[0] == x && r[1..] == s;
      assert WithKeyBy(r, key, k) == (if key(x) == k then [x] else []) + WithKeyBy(s, key, k);
      if key(x) == k {
        WithKeyByNone(s, key, k);
      }
    } else {
      var rest := InsertBy(s[1..], x, key);
      var r := [s[0]] + rest;
      var head := if key(s[0]) == k then [s[0]] else [];
      assert r[0] == s[0] && r[1..] == rest;
      assert WithKeyBy(r, key, k) == head + WithKeyBy(rest, key, k);
      assert SortedBy(s[1..], key) by {
        forall i, j | 0 <= i < j < |s[1..]| ensures key(s[1..][i]) <= key(s[1..][j]) {
          assert s[1..][i] == s[i + 1] && s[1..][j] == s[j + 1];
        }
      }
      InsertByStable(s[1..], x, key, k);
    }
  }

  /**
   * The sort is stable: the elements with any one key come out in the order
   * they went in.
   */
  lemma {:induction false} SortByStable<T>(s: seq<T>, key: T -> int, k: int)
    ensures WithKeyBy(SortBy(s, key), key, k) == WithKeyBy(s, key, k)
    decreases |s|
  {
    if |s| > 0 {
      var init := s[..|s| - 1];
      var last := s[|s| - 1];
      SortByStable(init, key, k);
      SortBySpec(init, key);
      InsertByStable(SortBy(init, key), last, key, k);
      assert s == init + [last];
      WithKeyByAppend(init, [last], key, k);
      assert [last][1..] == [];
    }
  }
}
