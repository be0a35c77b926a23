/** Counting the keys of a sequence in a dict and picking the key that
    sorts first under (-count, key), as
    `counts[k] = counts.get(k, 0) + 1` followed by
    `sorted(counts.items(), key=lambda item: (-item[1], item[0]))[0][0]`. */
module Tally {
  import opened Text
  import opened Collections

  /** How many of s[..n] have key k. */
  function Occurrences<T>(s: seq<T>, key: T -> string, n: int, k: string): (c: nat)
    requires 0 <= n <= |s|
    ensures c <= n
  {
    if n == 0 then 0 else Occurrences(s, key, n - 1, k) + (if key(s[n - 1]) == k then 1 else 0)
  }

  /** x sorts before y under (-count, name). */
  predicate Beats<T>(s: seq<T>, key: T -> string, x: string, y: string) {
    var cx, cy := Occurrences(s, key, |s|, x), Occurrences(s, key, |s|, y);
    cx > cy || (cx == cy && StrLess(x, y))
  }

  lemma BeatsAsymmetric<T>(s: seq<T>, key: T -> string, x: string, y: string)
    requires Beats(s, key, x, y)
    ensures !Beats(s, key, y, x) && x != y
  {
    if Occurrences(s, key, |s|, x) == Occurrences(s, key, |s|, y) {
      StrLessAsymmetric(x, y);
    }
  }

  lemma BeatsTransitive<T>(s: seq<T>, key: T -> string, x: string, y: string, z: string)
    requires Beats(s, key, x, y) && Beats(s, key, y, z)
    ensures Beats(s, key, x, z)
  {
    if Occurrences(s, key, |s|, x) == Occurrences(s, key, |s|, y) == Occurrences(s, key, |s|, z) {
      StrLessTransitive(x, y, z);
    }
  }

  /** The first of keys[..n] under Beats. */
  function BestOf<T>(s: seq<T>, key: T -> string, keys: seq<string>, n: int): (r: string)
    requires 0 < n <= |keys|
  {
    if n == 1 then keys[0]
    else
      var b := BestOf(s, key, keys, n - 1);
      if Beats(s, key, keys[n - 1], b) then keys[n - 1] else b
  }

  /** BestOf picks one of keys[..n], and it beats every other one of them. */
  lemma {:induction false} BestOfIsFirst<T>(s: seq<T>, key: T -> string, keys: seq<string>, n: int)
    requires 0 < n <= |keys|
    ensures exists i :: 0 <= i < n && keys[i] == BestOf(s, key, keys, n)
    ensures forall i :: 0 <= i < n && keys[i] != BestOf(s, key, keys, n) ==> Beats(s, key, BestOf(s, key, keys, n), keys[i])
  {
    if n > 1 {
      BestOfIsFirst(s, key, keys, n - 1);
      var b := BestOf(s, key, keys, n - 1);
      var x := keys[n - 1];
      var w :| 0 <= w < n - 1 && keys[w] == b;
      if Beats(s, key, x, b) {
        assert keys[n - 1] == BestOf(s, key, keys, n);
        forall i | 0 <= i < n && keys[i] != x
          ensures Beats(s, key, x, keys[i])
        {
          if keys[i] != b {
            BeatsTransitive(s, key, x, b, keys[i]);
          }
        }
      } else {
        assert keys[w] == BestOf(s, key, keys, n);
        if x != b {
          StrLessTotal(x, b);
        }
      }
    } else {
      assert keys[0] == BestOf(s, key, keys, 1);
    }
  }

  /** The key of s that sorts first under (-count, key). */
  function MostFrequent<T>(s: seq<T>, key: T -> string): (r: string)
    requires s != []
  {
    var keys := KeysInOrder(s, key);
    KeysInOrderMembers(s, key);
    assert HasKey(s, key, key(s[0]));
    BestOf(s, key, keys, |keys|)
  }

  /** MostFrequent is the key of some element, and it beats every other key:
      no key occurs more often, and of those that occur as often it is the
      smallest. */
  lemma MostFrequentIsFirst<T>(s: seq<T>, key: T -> string)
    requires s != []
    ensures exists x :: x in s && key(x) == MostFrequent(s, key)
    ensures forall x :: x in s && key(x) != MostFrequent(s, key) ==> Beats(s, key, MostFrequent(s, key), key(x))
  {
    var keys := KeysInOrder(s, key);
    KeysInOrderMembers(s, key);
    assert HasKey(s, key, key(s[0]));
    var r := MostFrequent(s, key);
    BestOfIsFirst(s, key, keys, |keys|);
    var i :| 0 <= i < |keys| && keys[i] == r;
    assert HasKey(s, key, r);
    forall x | x in s && key(x) != r
      ensures Beats(s, key, r, key(x))
    {
      var m :| 0 <= m < |s| && s[m] == x;
      assert HasKey(s, key, key(x));
      var j :| 0 <= j < |keys| && keys[j] == key(x);
    }
  }

  /** Only one key has that property, so the result does not depend on the
      order of the dict's items. */
  lemma MostFrequentUnique<T>(s: seq<T>, key: T -> string, d: string)
    requires s != []
    requires exists x :: x in s && key(x) == d
    requires forall x :: x in s && key(x) != d ==> Beats(s, key, d, key(x))
    ensures d == MostFrequent(s, key)
  {
    MostFrequentIsFirst(s, key);
    var r := MostFrequent(s, key);
    if d != r {
      var x :| x in s && key(x) == r;
      var y :| y in s && key(y) == d;
      BeatsAsymmetric(s, key, d, r);
    }
  }

  /** The dict of counts, held with its keys in insertion order. */
  ghost predicate CountsOf<T>(s: seq<T>, key: T -> string, i: int, keys: seq<string>, counts: map<string, nat>)
    requires 0 <= i <= |s|
  {
    keys == KeysInOrder(s[..i], key)
    && (forall k :: k in counts <==> k in keys)
    && (forall k :: k in counts ==> counts[k] == Occurrences(s, key, i, k))
  }

  /** One more step of the counting loop. */
  lemma CountsOfStep<T>(s: seq<T>, key: T -> string, i: int, keys: seq<string>, counts: map<string, nat>)
    requires 0 <= i < |s| && CountsOf(s, key, i, keys, counts)
    ensures var k := key(s[i]);
      CountsOf(s, key, i + 1, if k in counts then keys else keys + [k],
               counts[k := (if k in counts then counts[k] else 0) + 1])
  {
    var k := key(s[i]);
    TakeNext(s, i);
    KeysInOrderSnoc(s[..i], s[i], key);
    if k !in counts {
      KeysInOrderMembers(s[..i], key);
      OccurrencesAbsent(s, key, i, k);
    }
  }

  /** A key that no element of s[..n] has occurs zero times there. */
  lemma {:induction false} OccurrencesAbsent<T>(s: seq<T>, key: T -> string, n: int, k: string)
    requires 0 <= n <= |s| && !HasKey(s[..n], key, k)
    ensures Occurrences(s, key, n, k) == 0
  {
    if n > 0 {
      assert key(s[..n][n - 1]) != k;
      var t, u := s[..n - 1], s[..n];
      forall j | 0 <= j < |t|
        ensures key(t[j]) != k
      {
        assert t[j] == u[j];
      }
      OccurrencesAbsent(s, key, n - 1, k);
    }
  }

  /** `for x in s: counts[key(x)] = counts.get(key(x), 0) + 1` */
  method CountKeys<T>(s: seq<T>, key: T -> string) returns (keys: seq<string>, counts: map<string, nat>)
    ensures CountsOf(s, key, |s|, keys, counts)
  {
    counts, keys := map[], [];
    for i := 0 to |s|
      invariant CountsOf(s, key, i, keys, counts)
    {
      var k := key(s[i]);
      CountsOfStep(s, key, i, keys, counts);
      if k !in counts {
        keys := keys + [k];
      }
      counts := counts[k := (if k in counts then counts[k] else 0) + 1];
    }
  }

  /** The first item of the counts sorted by (-count, key), found by one
      pass over the items. */
  method PickFirst<T>(s: seq<T>, key: T -> string, keys: seq<string>, counts: map<string, nat>) returns (r: string)
    requires s != [] && CountsOf(s, key, |s|, keys, counts)
    ensures r == MostFrequent(s, key)
  {
    assert s[..|s|] == s;
    KeysInOrderMembers(s, key);
    assert HasKey(s, key, key(s[0]));
    var best := keys[0];
    for j := 1 to |keys|
      invariant best == BestOf(s, key, keys, j)
      invariant best in counts
    {
      var x := keys[j];
      if counts[x] > counts[best] || (counts[x] == counts[best] && StrLess(x, best)) {
        best := x;
      }
    }
    r := best;
  }

  /** The counting loop and the selection of the first item. */
  method CountAndPick<T>(s: seq<T>, key: T -> string) returns (r: string)
    requires s != []
    ensures r == MostFrequent(s, key)
  {
    var keys, counts := CountKeys(s, key);
    r := PickFirst(s, key, keys, counts);
  }
}
