/** Sequence helpers: counting and filtering as in Python comprehensions, and
    the behaviour of a Python dict filled in a loop (insertion-ordered keys,
    last write wins). */
module Collections {

  /** sum(1 for x in s if p(x)) */
  function Count<T>(s: seq<T>, p: T -> bool): (n: nat)
    ensures n <= |s|
  {
    if s == [] then 0 else Count(s[..|s| - 1], p) + (if p(s[|s| - 1]) then 1 else 0)
  }

  /** [x for x in s if p(x)] */
  function Filter<T(!new)>(s: seq<T>, p: T -> bool): (r: seq<T>)
    ensures |r| <= |s|
    ensures forall x :: x in r <==> x in s && p(x)
  {
    if s == [] then []
    else Filter(s[..|s| - 1], p) + (if p(s[|s| - 1]) then [s[|s| - 1]] else [])
  }

  lemma FilterLength<T(!new)>(s: seq<T>, p: T -> bool)
    ensures |Filter(s, p)| == Count(s, p)
  {
  }

  /** Appending one element extends the comprehension by that element
      exactly when it passes the test, which is what a loop building the
      list with `append` needs. */
  lemma FilterSnoc<T(!new)>(s: seq<T>, x: T, p: T -> bool)
    ensures Filter(s + [x], p) == Filter(s, p) + (if p(x) then [x] else [])
    ensures Count(s + [x], p) == Count(s, p) + (if p(x) then 1 else 0)
  {
    assert (s + [x])[..|s|] == s;
  }

  /** r is s with some elements left out and the rest kept in order:
      r[k] == s[idx[k]] for strictly increasing positions idx. */
  ghost predicate Embeds<T>(r: seq<T>, s: seq<T>, idx: seq<int>) {
    |idx| == |r|
    && (forall k :: 0 <= k < |idx| ==> 0 <= idx[k] < |s| && r[k] == s[idx[k]])
    && (forall k, l :: 0 <= k < l < |idx| ==> idx[k] < idx[l])
  }

  /** The positions of s whose elements pass the test, in order. */
  function FilterIndices<T>(s: seq<T>, p: T -> bool): seq<int> {
    if s == [] then []
    else FilterIndices(s[..|s| - 1], p) + (if p(s[|s| - 1]) then [|s| - 1] else [])
  }

  /** The comprehension over a list with one more element in front. */
  lemma {:induction false} FilterCons<T(!new)>(a: T, s: seq<T>, p: T -> bool)
    ensures Filter([a] + s, p) == (if p(a) then [a] else []) + Filter(s, p)
  {
    var t := [a] + s;
    if s == [] {
      assert t[..|t| - 1] == [];
    } else {
      var init, last := s[..|s| - 1], s[|s| - 1];
      var q := if p(last) then [last] else [];
      assert t[..|t| - 1] == [a] + init && t[|t| - 1] == last;
      assert Filter(t, p) == Filter([a] + init, p) + q;
      assert Filter(s, p) == Filter(init, p) + q;
      FilterCons(a, init, p);
    }
  }

  /** A comprehension keeps the passing elements in their original order. */
  lemma {:induction false} FilterInOrder<T(!new)>(s: seq<T>, p: T -> bool)
    ensures Embeds(Filter(s, p), s, FilterIndices(s, p))
  {
    if s != [] {
      var n := |s| - 1;
      var init := s[..n];
      FilterInOrder(init, p);
      var r0, i0 := Filter(init, p), FilterIndices(init, p);
      assert forall k :: 0 <= k < |i0| ==> i0[k] < n && s[i0[k]] == init[i0[k]];
      if p(s[n]) {
        var r, idx := r0 + [s[n]], i0 + [n];
        assert Filter(s, p) == r && FilterIndices(s, p) == idx;
        assert forall k :: 0 <= k < |i0| ==> r[k] == r0[k] && idx[k] == i0[k];
      }
    }
  }

  /** A comprehension whose test fails everywhere is empty. */
  lemma {:induction false} FilterNone<T(!new)>(s: seq<T>, p: T -> bool)
    requires forall i :: 0 <= i < |s| ==> !p(s[i])
    ensures Filter(s, p) == []
  {
    if s != [] {
      FilterNone(s[..|s| - 1], p);
    }
  }

  /** {f(x) for x in s if p(x)} */
  function ImageWhere<T, K(!new)>(s: seq<T>, f: T -> K, p: T -> bool): (r: set<K>)
    ensures |r| <= |s|
    ensures forall k :: k in r <==> exists i :: 0 <= i < |s| && p(s[i]) && f(s[i]) == k
  {
    if s == [] then {}
    else
      var init := s[..|s| - 1];
      var q := ImageWhere(init, f, p);
      var r := if p(s[|s| - 1]) then q + {f(s[|s| - 1])} else q;
      assert |r| <= |q| + 1;
      assert forall k :: k in q ==> exists i :: 0 <= i < |s| && p(s[i]) && f(s[i]) == k by {
        forall k | k in q ensures exists i :: 0 <= i < |s| && p(s[i]) && f(s[i]) == k {
          var i :| 0 <= i < |init| && p(init[i]) && f(init[i]) == k;
          assert s[i] == init[i];
        }
      }
      assert forall i :: 0 <= i < |s| - 1 ==> s[i] == init[i];
      r
  }

  /** The elements of an elementwise image are exactly the images of the
      elements. */
  lemma ImageMembers<T, U>(xs: seq<T>, f: T -> U, ys: seq<U>)
    requires |ys| == |xs| && forall i :: 0 <= i < |xs| ==> ys[i] == f(xs[i])
    ensures forall y :: y in ys <==> exists x :: x in xs && y == f(x)
  {
    forall y ensures y in ys <==> exists x :: x in xs && y == f(x) {
      if y in ys {
        var i :| 0 <= i < |ys| && ys[i] == y;
        assert xs[i] in xs;
      }
      if x :| x in xs && y == f(x) {
        var i :| 0 <= i < |xs| && xs[i] == x;
        assert ys[i] == y;
      }
    }
  }

  /** When every element maps to k and one passes the test, the image is {k}. */
  lemma ImageWhereConstant<T, K(!new)>(s: seq<T>, f: T -> K, p: T -> bool, k: K)
    requires exists i :: 0 <= i < |s| && p(s[i])
    requires forall i :: 0 <= i < |s| ==> f(s[i]) == k
    ensures ImageWhere(s, f, p) == {k}
  {
    var r := ImageWhere(s, f, p);
    assert forall x :: x in r <==> x == k;
  }

  predicate Distinct<K(==)>(s: seq<K>) {
    forall i, j :: 0 <= i < j < |s| ==> s[i] != s[j]
  }

  predicate HasKey<T, K(==)>(s: seq<T>, key: T -> K, k: K) {
    exists i :: 0 <= i < |s| && key(s[i]) == k
  }

  /** The keys of a dict filled from s, in insertion (first occurrence) order. */
  function KeysInOrder<T, K(==)>(s: seq<T>, key: T -> K): (r: seq<K>)
    ensures |r| <= |s|
  {
    if s == [] then []
    else
      var p := KeysInOrder(s[..|s| - 1], key);
      if key(s[|s| - 1]) in p then p else p + [key(s[|s| - 1])]
  }

  /** Every key of s occurs in KeysInOrder(s, key) exactly once. */
  lemma {:induction false} KeysInOrderMembers<T, K(!new)>(s: seq<T>, key: T -> K)
    ensures Distinct(KeysInOrder(s, key))
    ensures forall k :: k in KeysInOrder(s, key) <==> HasKey(s, key, k)
  {
    if s != [] {
      var init := s[..|s| - 1];
      KeysInOrderMembers(init, key);
      forall k | HasKey(init, key, k) ensures HasKey(s, key, k) {
        var i :| 0 <= i < |init| && key(init[i]) == k;
        assert key(s[i]) == k;
      }
      forall k | HasKey(s, key, k) ensures HasKey(init, key, k) || k == key(s[|s| - 1]) {
        var i :| 0 <= i < |s| && key(s[i]) == k;
        if i < |s| - 1 {
          assert key(init[i]) == k;
        }
      }
    }
  }

  /** The value a dict filled from s holds for k: the last element with key k. */
  function LastWith<T, K(==)>(s: seq<T>, key: T -> K, k: K): (r: T)
    requires HasKey(s, key, k)
    ensures key(r) == k && r in s
  {
    if key(s[|s| - 1]) == k then s[|s| - 1]
    else
      var init := s[..|s| - 1];
      assert HasKey(init, key, k) by {
        var i :| 0 <= i < |s| && key(s[i]) == k;
        assert key(init[i]) == k;
      }
      LastWith(init, key, k)
  }

  /** list(d.values()) for `d = {}; for x in s: d[key(x)] = x`. */
  function LastWins<T, K(==,!new)>(s: seq<T>, key: T -> K): (r: seq<T>)
    ensures |r| == |KeysInOrder(s, key)| && |r| <= |s|
    ensures forall i :: 0 <= i < |r| ==> key(r[i]) == KeysInOrder(s, key)[i]
    ensures forall i, j :: 0 <= i < j < |r| ==> key(r[i]) != key(r[j])
    ensures forall x :: x in r ==> x in s && HasKey(s, key, key(x)) && x == LastWith(s, key, key(x))
    ensures forall x :: x in s ==> exists y :: y in r && key(y) == key(x)
  {
    var ks := KeysInOrder(s, key);
    KeysInOrderMembers(s, key);
    var r := seq(|ks|, i requires 0 <= i < |ks| => LastWith(s, key, ks[i]));
    assert forall x :: x in s ==> HasKey(s, key, key(x)) by {
      forall x | x in s ensures HasKey(s, key, key(x)) {
        var i :| 0 <= i < |s| && s[i] == x;
      }
    }
    assert forall x :: x in s ==> exists y :: y in r && key(y) == key(x) by {
      forall x | x in s ensures exists y :: y in r && key(y) == key(x) {
        var i :| 0 <= i < |ks| && ks[i] == key(x);
        assert r[i] in r;
      }
    }
    r
  }

  /** LastWith really picks the last occurrence: no later element has its key. */
  lemma {:induction false} LastWithIsLast<T, K>(s: seq<T>, key: T -> K, k: K)
    requires HasKey(s, key, k)
    ensures exists i :: 0 <= i < |s| && s[i] == LastWith(s, key, k)
                     && (forall j :: i < j < |s| ==> key(s[j]) != k)
  {
    var n := |s| - 1;
    if key(s[n]) == k {
      assert s[n] == LastWith(s, key, k);
    } else {
      var init := s[..n];
      assert HasKey(init, key, k) by {
        var i :| 0 <= i < |s| && key(s[i]) == k;
        assert key(init[i]) == k;
      }
      LastWithIsLast(init, key, k);
      var i :| 0 <= i < |init| && init[i] == LastWith(init, key, k)
               && (forall j :: i < j < |init| ==> key(init[j]) != k);
      assert s[i] == LastWith(s, key, k);
      forall j | i < j < |s|
        ensures key(s[j]) != k
      {
        if j < n {
          assert key(init[j]) != k;
        }
      }
    }
  }

  lemma {:induction false} KeysInOrderSnoc<T, K>(s: seq<T>, x: T, key: T -> K)
    ensures KeysInOrder(s + [x], key) ==
      if key(x) in KeysInOrder(s, key) then KeysInOrder(s, key) else KeysInOrder(s, key) + [key(x)]
  {
    assert (s + [x])[..|s|] == s;
  }

  lemma {:induction false} LastWithSnoc<T, K>(s: seq<T>, x: T, key: T -> K, k: K)
    requires HasKey(s + [x], key, k)
    ensures LastWith(s + [x], key, k) == if key(x) == k then x else LastWith(s, key, k)
  {
    assert (s + [x])[..|s|] == s;
  }

  /** The state of a Python dict after `for x in s: d[key(x)] = x`, held as a
      map together with its keys in insertion order. */
  ghost predicate DictOf<T, K(!new)>(keys: seq<K>, d: map<K, T>, s: seq<T>, key: T -> K) {
    keys == KeysInOrder(s, key)
    && (forall k :: k in d <==> k in keys)
    && (forall k :: k in d ==> HasKey(s, key, k) && d[k] == LastWith(s, key, k))
  }

  /** One more assignment `d[key(x)] = x`: a new key goes to the end of the
      key order, an old key keeps its place and takes the new value. */
  lemma {:induction false} DictOfSnoc<T, K(!new)>(keys: seq<K>, d: map<K, T>, s: seq<T>, key: T -> K, x: T)
    requires DictOf(keys, d, s, key)
    ensures DictOf(if key(x) in d then keys else keys + [key(x)], d[key(x) := x], s + [x], key)
  {
    var p := s + [x];
    KeysInOrderSnoc(s, x, key);
    KeysInOrderMembers(s, key);
    assert key(p[|s|]) == key(x);
    forall k | k in d[key(x) := x]
      ensures HasKey(p, key, k) && d[key(x) := x][k] == LastWith(p, key, k)
    {
      if k != key(x) {
        var i :| 0 <= i < |s| && key(s[i]) == k;
        assert key(p[i]) == k;
      }
      LastWithSnoc(s, x, key, k);
    }
  }

  /** `for x in items: d[key(x)] = x` on a dict that already holds s. */
  method StoreAll<T, K(==,!new)>(keys: seq<K>, d: map<K, T>, ghost s: seq<T>, items: seq<T>, key: T -> K)
    returns (keys': seq<K>, d': map<K, T>)
    requires DictOf(keys, d, s, key)
    ensures DictOf(keys', d', s + items, key)
  {
    keys', d' := keys, d;
    AppendTake(s, items, 0);
    var k := 0;
    while k < |items|
      invariant 0 <= k <= |items|
      invariant DictOf(keys', d', s + items[..k], key)
    {
      var x := items[k];
      DictOfSnoc(keys', d', s + items[..k], key, x);
      AppendTake(s, items, k + 1);
      if key(x) !in d' {
        keys' := keys' + [key(x)];
      }
      d' := d'[key(x) := x];
      k := k + 1;
    }
    AppendTake(s, items, |items|);
  }

  lemma AppendTake<T>(s: seq<T>, items: seq<T>, k: nat)
    requires k <= |items|
    ensures k == 0 ==> s + items[..k] == s
    ensures k > 0 ==> s + items[..k] == (s + items[..k - 1]) + [items[k - 1]]
    ensures k == |items| ==> s + items[..k] == s + items
  {
    if k > 0 {
      assert items[..k] == items[..k - 1] + [items[k - 1]];
    }
    if k == |items| {
      assert items[..k] == items;
    }
  }

  /** An element of a non-empty sequence is in its front or is its last. */
  lemma InFrontOrLast<T>(s: seq<T>)
    requires s != []
    ensures forall x :: x in s <==> x in s[..|s| - 1] || x == s[|s| - 1]
  {
    assert s == s[..|s| - 1] + [s[|s| - 1]];
  }

  /** The prefix of length i + 1 is the prefix of length i and s[i]. */
  lemma TakeNext<T>(s: seq<T>, i: int)
    requires 0 <= i < |s|
    ensures s[..i + 1] == s[..i] + [s[i]]
  {
  }

  /** list(d.values()) of a dict that holds s. */
  method Values<T, K(==,!new)>(keys: seq<K>, d: map<K, T>, ghost s: seq<T>, key: T -> K) returns (vs: seq<T>)
    requires DictOf(keys, d, s, key)
    ensures vs == LastWins(s, key)
  {
    vs := seq(|keys|, i requires 0 <= i < |keys| => d[keys[i]]);
  }

  /** With no key repeated, the keys come in the order of s. */
  lemma {:induction false} KeysInOrderOfDistinct<T, K(!new)>(s: seq<T>, key: T -> K)
    requires forall i, j :: 0 <= i < j < |s| ==> key(s[i]) != key(s[j])
    ensures |KeysInOrder(s, key)| == |s|
    ensures forall i :: 0 <= i < |s| ==> KeysInOrder(s, key)[i] == key(s[i])
  {
    if s != [] {
      var n := |s| - 1;
      var init := s[..n];
      KeysInOrderOfDistinct(init, key);
      KeysInOrderMembers(init, key);
      assert forall i :: 0 <= i < |init| ==> init[i] == s[i];
    }
  }

  /** With no key repeated, filling a dict from s and reading its values
      back gives s itself. */
  lemma LastWinsOfDistinct<T, K(!new)>(s: seq<T>, key: T -> K)
    requires forall i, j :: 0 <= i < j < |s| ==> key(s[i]) != key(s[j])
    ensures LastWins(s, key) == s
  {
    KeysInOrderOfDistinct(s, key);
    var r := LastWins(s, key);
    forall i | 0 <= i < |s| ensures r[i] == s[i] {
      assert HasKey(s, key, key(s[i]));
      LastWithIsLast(s, key, key(s[i]));
      var m :| 0 <= m < |s| && s[m] == LastWith(s, key, key(s[i]))
               && (forall j :: m < j < |s| ==> key(s[j]) != key(s[i]));
      assert key(s[m]) == key(s[i]);
      assert m == i;
    }
  }
}
