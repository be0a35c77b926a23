/** Python's sorted(..., key=...) for keys that are tuples of strings. */
module Sorting {
  import opened Text
  import opened Collections

  /** Python's `<` on tuples of strings: lexicographic, element by element. */
  predicate KeyLess(a: seq<string>, b: seq<string>) {
    if |a| == 0 then |b| > 0
    else if |b| == 0 then false
    else if a[0] != b[0] then StrLess(a[0], b[0])
    else KeyLess(a[1..], b[1..])
  }

  lemma {:induction false} KeyLessIrreflexive(a: seq<string>)
    ensures !KeyLess(a, a)
  {
    if |a| > 0 {
      KeyLessIrreflexive(a[1..]);
    }
  }

  lemma {:induction false} KeyLessTransitive(a: seq<string>, b: seq<string>, c: seq<string>)
    requires KeyLess(a, b) && KeyLess(b, c)
    ensures KeyLess(a, c)
  {
    if |a| > 0 && |b| > 0 && |c| > 0 {
      if a[0] == b[0] && b[0] == c[0] {
        KeyLessTransitive(a[1..], b[1..], c[1..]);
      } else if a[0] != b[0] && b[0] != c[0] {
        StrLessTransitive(a[0], b[0], c[0]);
        if a[0] == c[0] {
          StrLessAsymmetric(a[0], b[0]);
        }
      } else if a[0] != b[0] {
        assert KeyLess(a, b) == StrLess(a[0], b[0]);
      }
    }
  }

  lemma {:induction false} KeyLessTotal(a: seq<string>, b: seq<string>)
    requires a != b
    ensures KeyLess(a, b) || KeyLess(b, a)
  {
    if |a| > 0 && |b| > 0 {
      if a[0] == b[0] {
        assert a == [a[0]] + a[1..] && b == [b[0]] + b[1..];
        KeyLessTotal(a[1..], b[1..]);
      } else {
        StrLessTotal(a[0], b[0]);
      }
    }
  }

  lemma KeyLessAsymmetric(a: seq<string>, b: seq<string>)
    requires KeyLess(a, b)
    ensures !KeyLess(b, a)
  {
    if KeyLess(b, a) {
      KeyLessTransitive(a, b, a);
      KeyLessIrreflexive(a);
    }
  }

  /** "not greater": the order sorted() keeps between neighbours. */
  predicate KeyLessEq(a: seq<string>, b: seq<string>) {
    !KeyLess(b, a)
  }

  lemma KeyLessEqTransitive(a: seq<string>, b: seq<string>, c: seq<string>)
    requires KeyLessEq(a, b) && KeyLessEq(b, c)
    ensures KeyLessEq(a, c)
  {
    if KeyLess(c, a) {
      if a == b {
      } else if b == c {
      } else {
        KeyLessTotal(a, b);
        KeyLessTotal(b, c);
        KeyLessTransitive(a, b, c);
        KeyLessAsymmetric(a, c);
      }
    }
  }

  /** A one-element key is ordered as its only string. */
  lemma SingletonKeyLess(a: string, b: string)
    ensures KeyLess([a], [b]) == StrLess(a, b)
  {
    if a == b {
      StrLessIrreflexive(a);
      assert [a][1..] == [];
    } else {
      assert [a][0] == a && [b][0] == b;
    }
  }

  ghost predicate SortedBy<T>(s: seq<T>, key: T -> seq<string>) {
    forall i, j :: 0 <= i < j < |s| ==> KeyLessEq(key(s[i]), key(s[j]))
  }

  ghost predicate StrictlySortedBy<T>(s: seq<T>, key: T -> seq<string>) {
    forall i, j :: 0 <= i < j < |s| ==> KeyLess(key(s[i]), key(s[j]))
  }

  /** Inserts x before the first element whose key is not smaller than x's,
      so that x precedes the equal keys that follow it (stability). */
  function Insert<T>(x: T, s: seq<T>, key: T -> seq<string>): (r: seq<T>)
    ensures |r| == |s| + 1
  {
    if s == [] then [x]
    else if KeyLess(key(s[0]), key(x)) then [s[0]] + Insert(x, s[1..], key)
    else [x] + s
  }

  /** The test "has key k", as a comprehension filter. */
  function KeyIs<T>(key: T -> seq<string>, k: seq<string>): T -> bool {
    y => key(y) == k
  }

  /** Inserting x puts it in front of every element with its key. */
  lemma {:induction false} InsertStable<T(!new)>(x: T, s: seq<T>, key: T -> seq<string>, k: seq<string>)
    ensures Filter(Insert(x, s, key), KeyIs(key, k)) == (if key(x) == k then [x] else []) + Filter(s, KeyIs(key, k))
  {
    var p := KeyIs(key, k);
    var px: seq<T> := if key(x) == k then [x] else [];
    if s == [] {
      FilterCons(x, [], p);
    } else if KeyLess(key(s[0]), key(x)) {
      var head, tail := s[0], s[1..];
      var ph: seq<T> := if key(head) == k then [head] else [];
      var rest := Insert(x, tail, key);
      assert Insert(x, s, key) == [head] + rest;
      assert s == [head] + tail;
      FilterCons(head, rest, p);
      InsertStable(x, tail, key, k);
      FilterCons(head, tail, p);
      KeyLessIrreflexive(key(x));
      SwapDisjoint(ph, px, Filter(tail, p));
    } else {
      assert Insert(x, s, key) == [x] + s;
      FilterCons(x, s, p);
    }
  }

  /** Two pieces of which at least one is empty can be put in front in
      either order. */
  lemma SwapDisjoint<T>(a: seq<T>, b: seq<T>, c: seq<T>)
    requires a == [] || b == []
    ensures a + (b + c) == b + (a + c)
  {
  }

  /** sorted is stable: for every key, the elements with that key come out
      in the order they went in. */
  lemma {:induction false} SortByStable<T(!new)>(s: seq<T>, key: T -> seq<string>, k: seq<string>)
    ensures Filter(SortBy(s, key), KeyIs(key, k)) == Filter(s, KeyIs(key, k))
  {
    if s != [] {
      SortByStable(s[1..], key, k);
      InsertStable(s[0], SortBy(s[1..], key), key, k);
      FilterCons(s[0], s[1..], KeyIs(key, k));
      assert [s[0]] + s[1..] == s;
    }
  }

  /** sorted(s, key=key): a stable insertion sort (see SortByStable). */
  function SortBy<T>(s: seq<T>, key: T -> seq<string>): (r: seq<T>)
    ensures |r| == |s|
  {
    if s == [] then [] else Insert(s[0], SortBy(s[1..], key), key)
  }

  lemma {:induction false} InsertMultiset<T>(x: T, s: seq<T>, key: T -> seq<string>)
    ensures multiset(Insert(x, s, key)) == multiset(s) + multiset{x}
  {
    if s != [] && KeyLess(key(s[0]), key(x)) {
      InsertMultiset(x, s[1..], key);
      assert s == [s[0]] + s[1..];
    }
  }

  lemma {:induction false} InsertSorted<T>(x: T, s: seq<T>, key: T -> seq<string>)
    requires SortedBy(s, key)
    ensures SortedBy(Insert(x, s, key), key)
  {
    if s == [] {
    } else if KeyLess(key(s[0]), key(x)) {
      var t := Insert(x, s[1..], key);
      InsertSorted(x, s[1..], key);
      InsertMultiset(x, s[1..], key);
      forall j | 0 <= j < |t|
        ensures KeyLessEq(key(s[0]), key(t[j]))
      {
        assert t[j] in multiset(t);
        if t[j] == x {
          KeyLessAsymmetric(key(s[0]), key(x));
        } else {
          assert t[j] in multiset(s[1..]);
          var k :| 0 <= k < |s[1..]| && s[1..][k] == t[j];
          assert s[1 + k] == t[j];
        }
      }
      var r := [s[0]] + t;
      forall i, j | 0 <= i < j < |r|
        ensures KeyLessEq(key(r[i]), key(r[j]))
      {
        if i == 0 {
          assert r[j] == t[j - 1];
        } else {
          assert r[i] == t[i - 1] && r[j] == t[j - 1];
        }
      }
    } else {
      var r := [x] + s;
      assert KeyLessEq(key(x), key(s[0]));
      forall i, j | 0 <= i < j < |r|
        ensures KeyLessEq(key(r[i]), key(r[j]))
      {
        if i == 0 {
          assert r[j] == s[j - 1];
          if j > 1 {
            KeyLessEqTransitive(key(x), key(s[0]), key(s[j - 1]));
          }
        } else {
          assert r[i] == s[i - 1] && r[j] == s[j - 1];
        }
      }
    }
  }

  /** The output of SortBy is ordered by key. */
  lemma {:induction false} SortBySorted<T>(s: seq<T>, key: T -> seq<string>)
    ensures SortedBy(SortBy(s, key), key)
  {
    if s != [] {
      SortBySorted(s[1..], key);
      InsertSorted(s[0], SortBy(s[1..], key), key);
    }
  }

  /** The output of SortBy is a permutation of its input. */
  lemma {:induction false} SortByPermutation<T>(s: seq<T>, key: T -> seq<string>)
    ensures multiset(SortBy(s, key)) == multiset(s)
  {
    if s != [] {
      SortByPermutation(s[1..], key);
      InsertMultiset(s[0], SortBy(s[1..], key), key);
      assert s == [s[0]] + s[1..];
    }
  }

  lemma SortByElements<T>(s: seq<T>, key: T -> seq<string>)
    ensures forall x :: x in SortBy(s, key) <==> x in s
  {
    SortByPermutation(s, key);
    forall x
      ensures x in SortBy(s, key) <==> x in s
    {
      assert x in SortBy(s, key) <==> x in multiset(SortBy(s, key));
      assert x in s <==> x in multiset(s);
    }
  }

  /** A sorted sequence whose keys are pairwise distinct is strictly ascending. */
  lemma SortedDistinctIsStrict<T>(s: seq<T>, key: T -> seq<string>)
    requires SortedBy(s, key)
    requires forall i, j :: 0 <= i < j < |s| ==> key(s[i]) != key(s[j])
    ensures StrictlySortedBy(s, key)
  {
    forall i, j | 0 <= i < j < |s|
      ensures KeyLess(key(s[i]), key(s[j]))
    {
      KeyLessTotal(key(s[i]), key(s[j]));
    }
  }

  /** Two strictly ascending sequences with the same elements are equal: the
      sorted output is determined by the multiset of its input. */
  lemma {:induction false} StrictlySortedUnique<T>(a: seq<T>, b: seq<T>, key: T -> seq<string>)
    requires StrictlySortedBy(a, key) && StrictlySortedBy(b, key)
    requires multiset(a) == multiset(b)
    ensures a == b
  {
    if a == [] {
      assert |b| == |multiset(b)| == 0;
    } else {
      assert |b| == |multiset(b)| == |multiset(a)| == |a|;
      SameHead(a, b, key);
      var x := a[0];
      StrictTail(a, key);
      StrictTail(b, key);
      MultisetCancel(x, a, b);
      StrictlySortedUnique(a[1..], b[1..], key);
      assert a == [x] + a[1..] && b == [x] + b[1..];
    }
  }

  lemma SameHead<T>(a: seq<T>, b: seq<T>, key: T -> seq<string>)
    requires StrictlySortedBy(a, key) && StrictlySortedBy(b, key)
    requires multiset(a) == multiset(b) && a != [] && b != []
    ensures a[0] == b[0]
  {
    var x := a[0];
    assert x in multiset(b);
    var k :| 0 <= k < |b| && b[k] == x;
    assert b[0] in multiset(a);
    var m :| 0 <= m < |a| && a[m] == b[0];
    if k != 0 {
      assert KeyLess(key(b[0]), key(x));
      if m == 0 {
        KeyLessIrreflexive(key(x));
      } else {
        KeyLessAsymmetric(key(x), key(b[0]));
      }
    }
  }

  lemma StrictTail<T>(a: seq<T>, key: T -> seq<string>)
    requires StrictlySortedBy(a, key) && a != []
    ensures StrictlySortedBy(a[1..], key)
  {
    forall i, j | 0 <= i < j < |a[1..]|
      ensures KeyLess(key(a[1..][i]), key(a[1..][j]))
    {
      assert a[1..][i] == a[i + 1] && a[1..][j] == a[j + 1];
    }
  }

  lemma MultisetCancel<T>(x: T, a: seq<T>, b: seq<T>)
    requires a != [] && b != [] && a[0] == x && b[0] == x
    requires multiset(a) == multiset(b)
    ensures multiset(a[1..]) == multiset(b[1..])
  {
    assert a == [x] + a[1..];
    assert b == [x] + b[1..];
    assert multiset(a) == multiset{x} + multiset(a[1..]);
    assert multiset(b) == multiset{x} + multiset(b[1..]);
    forall y
      ensures multiset(a[1..])[y] == multiset(b[1..])[y]
    {
      assert multiset(a)[y] == multiset{x}[y] + multiset(a[1..])[y];
      assert multiset(b)[y] == multiset{x}[y] + multiset(b[1..])[y];
    }
  }

  /** sorted() over strings. */
  function SortStrings(s: seq<string>): seq<string> {
    SortBy(s, (x: string) => [x])
  }

  predicate StrictlyAscending(s: seq<string>) {
    forall i, j :: 0 <= i < j < |s| ==> StrLess(s[i], s[j])
  }

  /** Sorting strings without duplicates gives a strictly ascending
      permutation of them. */
  lemma SortStringsAscending(s: seq<string>)
    requires forall i, j :: 0 <= i < j < |s| ==> s[i] != s[j]
    ensures StrictlyAscending(SortStrings(s))
    ensures multiset(SortStrings(s)) == multiset(s)
  {
    var key := (x: string) => [x];
    var r := SortStrings(s);
    SortBySorted(s, key);
    SortByPermutation(s, key);
    forall i, j | 0 <= i < j < |r|
      ensures StrLess(r[i], r[j])
    {
      DistinctAfterPermutation(s, r, i, j);
      SingletonKeyLess(r[i], r[j]);
      SingletonKeyLess(r[j], r[i]);
      StrLessTotal(r[i], r[j]);
    }
  }

  lemma DistinctAfterPermutation<T>(s: seq<T>, r: seq<T>, i: int, j: int)
    requires forall a, b :: 0 <= a < b < |s| ==> s[a] != s[b]
    requires multiset(r) == multiset(s)
    requires 0 <= i < j < |r|
    ensures r[i] != r[j]
  {
    if r[i] == r[j] {
      var x := r[i];
      assert r == r[..j] + [r[j]] + r[j + 1..];
      assert r[i] in r[..j];
      assert multiset(r)[x] >= 2;
      DistinctCountAtMostOne(s, x);
    }
  }

  lemma {:induction false} DistinctCountAtMostOne<T>(s: seq<T>, x: T)
    requires forall a, b :: 0 <= a < b < |s| ==> s[a] != s[b]
    ensures multiset(s)[x] <= 1
  {
    if s != [] {
      assert s == [s[0]] + s[1..];
      DistinctCountAtMostOne(s[1..], x);
      if s[0] == x {
        assert x !in s[1..];
      }
    }
  }

  /** Two duplicate-free sequences with the same elements are permutations
      of each other. */
  lemma DistinctSameElements<T>(a: seq<T>, b: seq<T>)
    requires forall i, j :: 0 <= i < j < |a| ==> a[i] != a[j]
    requires forall i, j :: 0 <= i < j < |b| ==> b[i] != b[j]
    requires forall x :: x in a <==> x in b
    ensures multiset(a) == multiset(b)
  {
    forall y
      ensures multiset(a)[y] == multiset(b)[y]
    {
      DistinctCountAtMostOne(a, y);
      DistinctCountAtMostOne(b, y);
      assert y in multiset(a) <==> y in a;
      assert y in multiset(b) <==> y in b;
    }
  }

  lemma AscendingIsStrictlySorted(a: seq<string>)
    requires StrictlyAscending(a)
    ensures StrictlySortedBy(a, (x: string) => [x])
  {
    forall i, j | 0 <= i < j < |a|
      ensures KeyLess([a[i]], [a[j]])
    {
      SingletonKeyLess(a[i], a[j]);
    }
  }

  /** sorted() of a set of strings is determined by the set alone: two
      strictly ascending sequences with the same elements are equal. */
  lemma AscendingUnique(a: seq<string>, b: seq<string>)
    requires StrictlyAscending(a) && StrictlyAscending(b)
    requires forall x :: x in a <==> x in b
    ensures a == b
  {
    forall i, j | 0 <= i < j < |a| ensures a[i] != a[j] {
      StrLessIrreflexive(a[i]);
    }
    forall i, j | 0 <= i < j < |b| ensures b[i] != b[j] {
      StrLessIrreflexive(b[i]);
    }
    DistinctSameElements(a, b);
    AscendingIsStrictlySorted(a);
    AscendingIsStrictlySorted(b);
    StrictlySortedUnique(a, b, (x: string) => [x]);
  }

  lemma AscendingCons(x: string, s: seq<string>)
    requires StrictlyAscending(s)
    requires forall y :: y in s ==> StrLess(x, y)
    ensures StrictlyAscending([x] + s)
  {
    var r := [x] + s;
    forall i, j | 0 <= i < j < |r|
      ensures StrLess(r[i], r[j])
    {
      if i == 0 {
        assert r[j] == s[j - 1] && r[j] in s;
      } else {
        assert r[i] == s[i - 1] && r[j] == s[j - 1];
      }
    }
  }

  lemma AscendingHeadLeast(x: string, s: seq<string>)
    requires StrictlyAscending(s) && s != [] && StrLess(x, s[0])
    ensures forall y :: y in s ==> StrLess(x, y)
  {
    forall y | y in s
      ensures StrLess(x, y)
    {
      var k :| 0 <= k < |s| && s[k] == y;
      if k > 0 {
        StrLessTransitive(x, s[0], s[k]);
      }
    }
  }

  lemma AscendingTail(s: seq<string>)
    requires StrictlyAscending(s) && s != []
    ensures StrictlyAscending(s[1..])
    ensures forall y :: y in s[1..] ==> StrLess(s[0], y)
  {
    var t := s[1..];
    forall i, j | 0 <= i < j < |t|
      ensures StrLess(t[i], t[j])
    {
      assert t[i] == s[i + 1] && t[j] == s[j + 1];
    }
    forall y | y in t
      ensures StrLess(s[0], y)
    {
      var k :| 0 <= k < |t| && t[k] == y;
      assert s[k + 1] == y;
    }
  }

  /** x added to a strictly ascending sequence of strings, which stays
      strictly ascending: the sorted view of a set after set.add(x). */
  function InsertAscending(x: string, s: seq<string>): (r: seq<string>)
    requires StrictlyAscending(s)
    ensures StrictlyAscending(r)
    ensures forall y :: y in r <==> y == x || y in s
  {
    if s == [] then [x]
    else if x == s[0] then s
    else if StrLess(x, s[0]) then
      AscendingHeadLeast(x, s);
      AscendingCons(x, s);
      [x] + s
    else
      StrLessTotal(x, s[0]);
      AscendingTail(s);
      var t := InsertAscending(x, s[1..]);
      AscendingCons(s[0], t);
      assert s == [s[0]] + s[1..];
      [s[0]] + t
  }

  /** sorted(set(xs) & set(ys)): the strings occurring in both, ascending and
      without repetition. */
  function SortedIntersection(xs: seq<string>, ys: seq<string>): (r: seq<string>)
    ensures StrictlyAscending(r)
    ensures forall x :: x in r <==> x in xs && x in ys
  {
    if xs == [] then []
    else
      var x := xs[|xs| - 1];
      var r := SortedIntersection(xs[..|xs| - 1], ys);
      assert xs == xs[..|xs| - 1] + [x];
      if x in ys then InsertAscending(x, r) else r
  }

  /** sorted(d.values(), key=key) for the dict d filled from s by
      `d[key(x)] = x`: strictly ascending by key (so no key twice), made of
      the last element of s with each key, and covering every key of s. */
  lemma SortedLastWins<T>(s: seq<T>, key: T -> seq<string>)
    ensures var r := SortBy(LastWins(s, key), key);
      StrictlySortedBy(r, key)
      && (forall x :: x in r ==> x in s && HasKey(s, key, key(x)) && x == LastWith(s, key, key(x)))
      && (forall x :: x in s ==> exists y :: y in r && key(y) == key(x))
  {
    var v := LastWins(s, key);
    SortedDistinctKeys(v, key);
    SortByElements(v, key);
    forall x | x in SortBy(v, key)
      ensures x in s && HasKey(s, key, key(x)) && x == LastWith(s, key, key(x))
    {
      SortByPermutation(v, key);
      assert x in multiset(SortBy(v, key));
      assert x in multiset(v);
      assert x in v;
    }
  }

  /** Sorting a sequence whose keys are pairwise distinct gives a strictly
      ascending sequence. */
  lemma SortedDistinctKeys<T>(v: seq<T>, key: T -> seq<string>)
    requires forall i, j :: 0 <= i < j < |v| ==> key(v[i]) != key(v[j])
    ensures StrictlySortedBy(SortBy(v, key), key)
  {
    var r := SortBy(v, key);
    SortBySorted(v, key);
    SortByPermutation(v, key);
    assert Distinct(v) by {
      forall x, y | 0 <= x < y < |v| ensures v[x] != v[y] {
        assert key(v[x]) != key(v[y]);
      }
    }
    forall i, j | 0 <= i < j < |r|
      ensures key(r[i]) != key(r[j])
    {
      DistinctAfterPermutation(v, r, i, j);
      assert r[i] in multiset(v) && r[j] in multiset(v);
      var a :| 0 <= a < |v| && v[a] == r[i];
      var b :| 0 <= b < |v| && v[b] == r[j];
    }
    SortedDistinctIsStrict(r, key);
  }
}
