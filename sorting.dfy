/** Python's sorted(): ascending on strings, and the stable descending sort
    by an integer key that `sorted(..., key=k, reverse=True)` performs. */
module Sorting {
  import opened Text

  predicate SortedStrings(s: seq<string>)
  {
    forall i, j :: 0 <= i < j < |s| ==> StrLe(s[i], s[j])
  }

  function InsertString(x: string, s: seq<string>): seq<string>
  {
    if s == [] then [x]
    else if StrLe(x, s[0]) then [x] + s
    else [s[0]] + InsertString(x, s[1..])
  }

  /** sorted(s) for a list of str (insertion sort). */
  function SortStrings(s: seq<string>): seq<string>
  {
    if s == [] then [] else InsertString(s[0], SortStrings(s[1..]))
  }

  /** y is at most every element of s. */
  predicate LeAll(y: string, s: seq<string>)
  {
    forall k :: 0 <= k < |s| ==> StrLe(y, s[k])
  }

  lemma {:induction false} InsertStringCount(x: string, s: seq<string>)
    ensures multiset(InsertString(x, s)) == multiset(s) + multiset{x}
    ensures |InsertString(x, s)| == |s| + 1
  {
    if s != [] && !StrLe(x, s[0]) {
      InsertStringCount(x, s[1..]);
      assert s == [s[0]] + s[1..];
    }
  }

  /** A lower bound of s and of x bounds every element of t when t holds
      the elements of s and x. */
  lemma {:induction false} LeAllPermutation(y: string, x: string, s: seq<string>, t: seq<string>)
    requires LeAll(y, s) && StrLe(y, x)
    requires multiset(t) == multiset(s) + multiset{x}
    ensures LeAll(y, t)
  {
    forall k | 0 <= k < |t| ensures StrLe(y, t[k]) {
      assert t[k] in multiset(t);
      if t[k] != x {
        assert t[k] in multiset(s);
        var m :| 0 <= m < |s| && s[m] == t[k];
      }
    }
  }

  lemma {:induction false} SortedCons(y: string, s: seq<string>)
    requires LeAll(y, s) && SortedStrings(s)
    ensures SortedStrings([y] + s)
  {
    var r := [y] + s;
    forall i, j | 0 <= i < j < |r| ensures StrLe(r[i], r[j]) {
      assert r[j] == s[j - 1];
      if i > 0 {
        assert r[i] == s[i - 1];
      }
    }
  }

  lemma {:induction false} SortedTail(s: seq<string>)
    requires SortedStrings(s) && s != []
    ensures LeAll(s[0], s[1..]) && SortedStrings(s[1..])
  {
    forall k | 0 <= k < |s[1..]| ensures StrLe(s[0], s[1..][k]) {
      assert s[1..][k] == s[k + 1];
    }
    forall i, j | 0 <= i < j < |s[1..]| ensures StrLe(s[1..][i], s[1..][j]) {
      assert s[1..][i] == s[i + 1] && s[1..][j] == s[j + 1];
    }
  }

  lemma {:induction false} InsertStringSorted(x: string, s: seq<string>)
    requires SortedStrings(s)
    ensures SortedStrings(InsertString(x, s))
  {
    if s == [] {
    } else if StrLe(x, s[0]) {
      SortedTail(s);
      forall k | 0 <= k < |s| ensures StrLe(x, s[k]) {
        if k > 0 { StrLeTrans(x, s[0], s[k]); }
      }
      SortedCons(x, s);
    } else {
      StrLeTotal(x, s[0]);
      SortedTail(s);
      InsertStringSorted(x, s[1..]);
      InsertStringCount(x, s[1..]);
      LeAllPermutation(s[0], x, s[1..], InsertString(x, s[1..]));
      SortedCons(s[0], InsertString(x, s[1..]));
    }
  }

  /** sorted(s) is ordered and a permutation of s. */
  lemma {:induction false} SortStringsCorrect(s: seq<string>)
    ensures SortedStrings(SortStrings(s))
    ensures multiset(SortStrings(s)) == multiset(s)
    ensures |SortStrings(s)| == |s|
  {
    SortStringsSorted(s);
    SortStringsCount(s);
  }

  lemma {:induction false} SortStringsSorted(s: seq<string>)
    ensures SortedStrings(SortStrings(s))
  {
    if s != [] {
      var t := SortStrings(s[1..]);
      SortStringsSorted(s[1..]);
      InsertStringSorted(s[0], t);
    }
  }

  lemma {:induction false} SortStringsCount(s: seq<string>)
    ensures multiset(SortStrings(s)) == multiset(s)
    ensures |SortStrings(s)| == |s|
  {
    if s != [] {
      var t := SortStrings(s[1..]);
      SortStringsCount(s[1..]);
      InsertStringCount(s[0], t);
      assert s == [s[0]] + s[1..];
    }
  }

  /** Two ordered permutations of each other are equal: sorted() has one
      possible result. */
  lemma {:induction false} SortedUnique(a: seq<string>, b: seq<string>)
    requires SortedStrings(a) && SortedStrings(b) && multiset(a) == multiset(b)
    ensures a == b
    decreases |a|
  {
    assert |b| == |a| by { assert |multiset(a)| == |multiset(b)|; }
    if a != [] {
      assert a[0] in multiset(b);
      assert b[0] in multiset(a);
      var i :| 0 <= i < |b| && b[i] == a[0];
      var j :| 0 <= j < |a| && a[j] == b[0];
      assert StrLe(b[0], a[0]) by { if i == 0 { StrLeRefl(a[0]); } }
      assert StrLe(a[0], b[0]) by { if j == 0 { StrLeRefl(a[0]); } }
      StrLeAntisym(a[0], b[0]);
      assert a == [a[0]] + a[1..];
      assert b == [b[0]] + b[1..];
      assert multiset(a) == multiset{a[0]} + multiset(a[1..]);
      assert multiset(b) == multiset{b[0]} + multiset(b[1..]);
      SortedTail(a);
      SortedTail(b);
      assert multiset(a[1..]) == multiset(b[1..]) by {
        forall z ensures multiset(a[1..])[z] == multiset(b[1..])[z] {
          assert multiset(a)[z] == multiset{a[0]}[z] + multiset(a[1..])[z];
          assert multiset(b)[z] == multiset{b[0]}[z] + multiset(b[1..])[z];
        }
      }
      SortedUnique(a[1..], b[1..]);
    }
  }

  /** Removes later repetitions, keeping first occurrences in order. */
  function Dedup(s: seq<string>): seq<string>
  {
    DedupFrom([], s)
  }

  function DedupFrom(seen: seq<string>, s: seq<string>): seq<string>
    decreases |s|
  {
    if s == [] then seen
    else if s[0] in seen then DedupFrom(seen, s[1..])
    else DedupFrom(seen + [s[0]], s[1..])
  }

  predicate NoDuplicates<T(==)>(s: seq<T>)
  {
    forall i, j :: 0 <= i < j < |s| ==> s[i] != s[j]
  }

  lemma {:induction false} DedupFromCorrect(seen: seq<string>, s: seq<string>)
    requires NoDuplicates(seen)
    ensures NoDuplicates(DedupFrom(seen, s))
    ensures forall x :: x in DedupFrom(seen, s) <==> x in seen || x in s
    decreases |s|
  {
    if s != [] {
      if s[0] in seen {
        DedupFromCorrect(seen, s[1..]);
      } else {
        DedupFromCorrect(seen + [s[0]], s[1..]);
      }
      assert forall x :: x in s <==> x == s[0] || x in s[1..];
    }
  }

  /** One more element is kept only when it was not seen yet. */
  lemma {:induction false} DedupFromSnoc(seen: seq<string>, s: seq<string>, x: string)
    ensures DedupFrom(seen, s + [x]) ==
      var d := DedupFrom(seen, s); if x in d then d else d + [x]
    decreases |s|
  {
    if s == [] {
      assert [] + [x] == [x];
    } else {
      assert (s + [x])[1..] == s[1..] + [x];
      if s[0] in seen {
        DedupFromSnoc(seen, s[1..], x);
      } else {
        DedupFromSnoc(seen + [s[0]], s[1..], x);
      }
    }
  }

  /** sorted(set(s)): the distinct elements, ascending. */
  function SortedSet(s: seq<string>): seq<string>
  {
    SortStrings(Dedup(s))
  }

  lemma {:induction false} SortedSetCorrect(s: seq<string>)
    ensures SortedStrings(SortedSet(s))
    ensures NoDuplicates(SortedSet(s))
    ensures forall x :: x in SortedSet(s) <==> x in s
    ensures |SortedSet(s)| <= |s|
  {
    DedupFromCorrect([], s);
    SortStringsCorrect(Dedup(s));
    var d := Dedup(s);
    assert forall x :: x in SortedSet(s) <==> x in multiset(d);
    NoDuplicatesTransfer(d, SortedSet(s));
    DedupFromLength([], s);
  }

  lemma {:induction false} DedupFromLength(seen: seq<string>, s: seq<string>)
    ensures |DedupFrom(seen, s)| <= |seen| + |s|
    decreases |s|
  {
    if s != [] {
      if s[0] in seen { DedupFromLength(seen, s[1..]); }
      else { DedupFromLength(seen + [s[0]], s[1..]); }
    }
  }

  lemma {:induction false} NoDuplicatesTransfer(a: seq<string>, b: seq<string>)
    requires NoDuplicates(a) && multiset(a) == multiset(b)
    ensures NoDuplicates(b)
  {
    forall x | x in multiset(a) ensures multiset(a)[x] == 1 {
      NoDuplicatesCount(a, x);
    }
    forall i, j | 0 <= i < j < |b| ensures b[i] != b[j] {
      if b[i] == b[j] {
        TwoOccurrences(b, i, j);
        assert false;
      }
    }
  }

  lemma {:induction false} NoDuplicatesCount(a: seq<string>, x: string)
    requires NoDuplicates(a) && x in a
    ensures multiset(a)[x] == 1
    decreases |a|
  {
    assert a == [a[0]] + a[1..];
    if a[0] == x {
      assert x !in a[1..];
      assert multiset(a[1..])[x] == 0;
    } else {
      NoDuplicatesCount(a[1..], x);
    }
  }

  lemma {:induction false} TwoOccurrences(b: seq<string>, i: int, j: int)
    requires 0 <= i < j < |b| && b[i] == b[j]
    ensures multiset(b)[b[i]] >= 2
  {
    var x := b[i];
    assert b == b[..i] + [x] + b[i + 1..j] + [x] + b[j + 1..];
    assert multiset(b) == multiset(b[..i]) + multiset{x} + multiset(b[i + 1..j]) + multiset{x} + multiset(b[j + 1..]);
  }

  /** Two duplicate-free sequences with no element in common concatenate
      to a duplicate-free sequence. */
  lemma {:induction false} DistinctConcat<T>(a: seq<T>, b: seq<T>)
    requires NoDuplicates(a) && NoDuplicates(b)
    requires forall i, j :: 0 <= i < |a| && 0 <= j < |b| ==> a[i] != b[j]
    ensures NoDuplicates(a + b)
  {
    var s := a + b;
    forall i, j | 0 <= i < j < |s| ensures s[i] != s[j] {
      if j < |a| {
        assert s[i] == a[i] && s[j] == a[j];
      } else if i >= |a| {
        assert s[i] == b[i - |a|] && s[j] == b[j - |a|];
      } else {
        assert s[i] == a[i] && s[j] == b[j - |a|];
      }
    }
  }

  /** A duplicate-free sequence has as many elements as its set. */
  lemma {:induction false} DistinctCard<T>(s: seq<T>)
    requires NoDuplicates(s)
    ensures |set x | x in s| == |s|
    decreases |s|
  {
    if s != [] {
      var front := s[..|s| - 1];
      var last := s[|s| - 1];
      assert NoDuplicates(front);
      DistinctCard(front);
      assert last !in front;
      assert (set x | x in s) == (set x | x in front) + {last} by {
        assert s == front + [last];
      }
    }
  }

  // ---------------------------------------------------------------------
  // Stable descending sort by an integer key.

  function InsertDesc<T>(x: T, s: seq<T>, key: T -> int): seq<T>
  {
    if s == [] then [x]
    else if key(s[0]) <= key(x) then [x] + s
    else [s[0]] + InsertDesc(x, s[1..], key)
  }

  /** sorted(s, key=key, reverse=True) */
  function SortDesc<T>(s: seq<T>, key: T -> int): seq<T>
  {
    if s == [] then [] else InsertDesc(s[0], SortDesc(s[1..], key), key)
  }

  predicate NonIncreasing<T>(s: seq<T>, key: T -> int)
  {
    forall i, j :: 0 <= i < j < |s| ==> key(s[i]) >= key(s[j])
  }

  /** The elements of s whose key is k, in their order in s. */
  function WithKey<T>(s: seq<T>, key: T -> int, k: int): seq<T>
  {
    if s == [] then []
    else (if key(s[0]) == k then [s[0]] else []) + WithKey(s[1..], key, k)
  }

  lemma {:induction false} InsertDescCount<T>(x: T, s: seq<T>, key: T -> int)
    ensures multiset(InsertDesc(x, s, key)) == multiset(s) + multiset{x}
    ensures |InsertDesc(x, s, key)| == |s| + 1
  {
    if s != [] && key(s[0]) > key(x) {
      InsertDescCount(x, s[1..], key);
      assert s == [s[0]] + s[1..];
    }
  }

  /** key(y) is at least every element's key. */
  predicate KeyAbove<T>(y: T, s: seq<T>, key: T -> int)
  {
    forall m :: 0 <= m < |s| ==> key(y) >= key(s[m])
  }

  lemma {:induction false} NonIncreasingCons<T>(y: T, s: seq<T>, key: T -> int)
    requires KeyAbove(y, s, key) && NonIncreasing(s, key)
    ensures NonIncreasing([y] + s, key)
  {
    var r := [y] + s;
    forall i, j | 0 <= i < j < |r| ensures key(r[i]) >= key(r[j]) {
      assert r[j] == s[j - 1];
      if i > 0 {
        assert r[i] == s[i - 1];
      }
    }
  }

  lemma {:induction false} NonIncreasingTail<T>(s: seq<T>, key: T -> int)
    requires NonIncreasing(s, key) && s != []
    ensures KeyAbove(s[0], s[1..], key) && NonIncreasing(s[1..], key)
  {
    forall m | 0 <= m < |s[1..]| ensures key(s[0]) >= key(s[1..][m]) {
      assert s[1..][m] == s[m + 1];
    }
    forall i, j | 0 <= i < j < |s[1..]| ensures key(s[1..][i]) >= key(s[1..][j]) {
      assert s[1..][i] == s[i + 1] && s[1..][j] == s[j + 1];
    }
  }

  lemma {:induction false} KeyAbovePermutation<T>(y: T, x: T, s: seq<T>, t: seq<T>, key: T -> int)
    requires KeyAbove(y, s, key) && key(y) >= key(x)
    requires multiset(t) == multiset(s) + multiset{x}
    ensures KeyAbove(y, t, key)
  {
    forall m | 0 <= m < |t| ensures key(y) >= key(t[m]) {
      assert t[m] in multiset(t);
      if t[m] != x {
        assert t[m] in multiset(s);
        var n :| 0 <= n < |s| && s[n] == t[m];
      }
    }
  }

  lemma {:induction false} InsertDescOrdered<T>(x: T, s: seq<T>, key: T -> int)
    requires NonIncreasing(s, key)
    ensures NonIncreasing(InsertDesc(x, s, key), key)
  {
    if s == [] {
    } else if key(s[0]) <= key(x) {
      NonIncreasingTail(s, key);
      assert KeyAbove(x, s, key);
      NonIncreasingCons(x, s, key);
    } else {
      var t := InsertDesc(x, s[1..], key);
      NonIncreasingTail(s, key);
      InsertDescOrdered(x, s[1..], key);
      InsertDescCount(x, s[1..], key);
      KeyAbovePermutation(s[0], x, s[1..], t, key);
      NonIncreasingCons(s[0], t, key);
    }
  }

  lemma {:induction false} WithKeyCons<T>(y: T, s: seq<T>, key: T -> int, k: int)
    ensures WithKey([y] + s, key, k) == (if key(y) == k then [y] else []) + WithKey(s, key, k)
  {
    assert ([y] + s)[1..] == s;
  }

  lemma {:induction false} InsertDescStable<T>(x: T, s: seq<T>, key: T -> int, k: int)
    ensures WithKey(InsertDesc(x, s, key), key, k) == WithKey([x] + s, key, k)
  {
    if s != [] && key(s[0]) > key(x) {
      var t := InsertDesc(x, s[1..], key);
      var w := WithKey(s[1..], key, k);
      assert InsertDesc(x, s, key) == [s[0]] + t;
      InsertDescStable(x, s[1..], key, k);
      WithKeyCons(s[0], t, key, k);
      WithKeyCons(x, s[1..], key, k);
      WithKeyCons(x, s, key, k);
      assert WithKey(s, key, k) == (if key(s[0]) == k then [s[0]] else []) + w;
      if key(x) == k {
        assert WithKey(t, key, k) == [x] + w;
        assert WithKey(s, key, k) == w;
      } else if key(s[0]) == k {
        assert WithKey(t, key, k) == w;
        assert WithKey(s, key, k) == [s[0]] + w;
      } else {
        assert WithKey(t, key, k) == w;
        assert WithKey(s, key, k) == w;
      }
    }
  }

  /** sorted(..., reverse=True) is ordered by non-increasing key, is a
      permutation of its input, and keeps equal keys in input order. */
  lemma {:induction false} SortDescCorrect<T>(s: seq<T>, key: T -> int)
    ensures NonIncreasing(SortDesc(s, key), key)
    ensures multiset(SortDesc(s, key)) == multiset(s)
    ensures |SortDesc(s, key)| == |s|
    ensures forall k :: WithKey(SortDesc(s, key), key, k) == WithKey(s, key, k)
  {
    SortDescOrdered(s, key);
    SortDescCount(s, key);
    forall k ensures WithKey(SortDesc(s, key), key, k) == WithKey(s, key, k) {
      SortDescStable(s, key, k);
    }
  }

  lemma {:induction false} SortDescOrdered<T>(s: seq<T>, key: T -> int)
    ensures NonIncreasing(SortDesc(s, key), key)
  {
    if s != [] {
      var t := SortDesc(s[1..], key);
      SortDescOrdered(s[1..], key);
      InsertDescOrdered(s[0], t, key);
    }
  }

  lemma {:induction false} SortDescCount<T>(s: seq<T>, key: T -> int)
    ensures multiset(SortDesc(s, key)) == multiset(s)
    ensures |SortDesc(s, key)| == |s|
  {
    if s != [] {
      var t := SortDesc(s[1..], key);
      SortDescCount(s[1..], key);
      InsertDescCount(s[0], t, key);
      assert s == [s[0]] + s[1..];
    }
  }

  lemma {:induction false} SortDescStable<T>(s: seq<T>, key: T -> int, k: int)
    ensures WithKey(SortDesc(s, key), key, k) == WithKey(s, key, k)
  {
    if s != [] {
      var t := SortDesc(s[1..], key);
      SortDescStable(s[1..], key, k);
      InsertDescStable(s[0], t, key, k);
      WithKeyCons(s[0], t, key, k);
      WithKeyCons(s[0], s[1..], key, k);
      assert s == [s[0]] + s[1..];
    }
  }
}
