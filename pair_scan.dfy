/** The order in which a nested index loop `for i in range(n): for j in
    range(i + 1, n)` visits the unordered pairs of a sequence, and what it
    collects when every pair yields a list of items. */
module PairScan {
  import opened Collections

  /** f(xs[i], xs[j]) for j = i + 1, ..., n - 1, concatenated in that order. */
  function RowItems<T, E>(xs: seq<T>, f: (T, T) -> seq<E>, i: int, n: int): seq<E>
    requires 0 <= i < |xs| && n <= |xs|
    decreases n
  {
    if n <= i + 1 then [] else RowItems(xs, f, i, n - 1) + f(xs[i], xs[n - 1])
  }

  /** The items of every pair whose first index is below m, in loop order. */
  function AllItems<T, E>(xs: seq<T>, f: (T, T) -> seq<E>, m: int): seq<E>
    requires 0 <= m <= |xs|
  {
    if m == 0 then [] else AllItems(xs, f, m - 1) + RowItems(xs, f, m - 1, |xs|)
  }

  /** Every item of a row comes from a pair (i, j) with i < j < n. */
  lemma {:induction false} RowItemsOrigin<T, E>(xs: seq<T>, f: (T, T) -> seq<E>, i: int, n: int, e: E)
    requires 0 <= i < |xs| && n <= |xs| && e in RowItems(xs, f, i, n)
    ensures exists j :: i < j < n && e in f(xs[i], xs[j])
    decreases n
  {
    if e in RowItems(xs, f, i, n - 1) {
      RowItemsOrigin(xs, f, i, n - 1, e);
    } else {
      assert e in f(xs[i], xs[n - 1]);
    }
  }

  /** Every collected item comes from a pair of distinct positions i < j. */
  lemma {:induction false} AllItemsOrigin<T, E>(xs: seq<T>, f: (T, T) -> seq<E>, m: int, e: E)
    requires 0 <= m <= |xs| && e in AllItems(xs, f, m)
    ensures exists i, j :: 0 <= i < j < |xs| && i < m && e in f(xs[i], xs[j])
  {
    if e in AllItems(xs, f, m - 1) {
      AllItemsOrigin(xs, f, m - 1, e);
    } else {
      RowItemsOrigin(xs, f, m - 1, |xs|, e);
    }
  }

  lemma {:induction false} RowItemsComplete<T, E>(xs: seq<T>, f: (T, T) -> seq<E>, i: int, j: int, n: int, e: E)
    requires 0 <= i < j < n <= |xs| && e in f(xs[i], xs[j])
    ensures e in RowItems(xs, f, i, n)
    decreases n
  {
    if j < n - 1 {
      RowItemsComplete(xs, f, i, j, n - 1, e);
    }
  }

  /** Conversely, every item of every pair i < j is collected. */
  lemma {:induction false} AllItemsComplete<T, E>(xs: seq<T>, f: (T, T) -> seq<E>, i: int, j: int, m: int, e: E)
    requires 0 <= i < j < |xs| && i < m <= |xs| && e in f(xs[i], xs[j])
    ensures e in AllItems(xs, f, m)
  {
    var prev, row := AllItems(xs, f, m - 1), RowItems(xs, f, m - 1, |xs|);
    assert AllItems(xs, f, m) == prev + row;
    if i < m - 1 {
      AllItemsComplete(xs, f, i, j, m - 1, e);
      assert e in prev;
    } else {
      RowItemsComplete(xs, f, i, j, |xs|, e);
      assert e in row;
    }
  }

  /** One more inner-loop step appends the next pair's items. */
  lemma RowItemsStep<T, E>(xs: seq<T>, f: (T, T) -> seq<E>, i: int, n: int)
    requires 0 <= i < |xs| && i < n < |xs|
    ensures RowItems(xs, f, i, n + 1) == RowItems(xs, f, i, n) + f(xs[i], xs[n])
  {
  }

  /** What the loop has collected when it is about to visit the pair (i, j). */
  function Scanned<T, E>(xs: seq<T>, f: (T, T) -> seq<E>, i: int, j: int): seq<E>
    requires 0 <= i < |xs| && i < j <= |xs|
  {
    AllItems(xs, f, i) + RowItems(xs, f, i, j)
  }

  lemma ScannedStart<T, E>(xs: seq<T>, f: (T, T) -> seq<E>, i: int)
    requires 0 <= i < |xs|
    ensures Scanned(xs, f, i, i + 1) == AllItems(xs, f, i)
  {
    assert AllItems(xs, f, i) + [] == AllItems(xs, f, i);
  }

  lemma ScannedStep<T, E>(xs: seq<T>, f: (T, T) -> seq<E>, i: int, j: int)
    requires 0 <= i < j < |xs|
    ensures Scanned(xs, f, i, j + 1) == Scanned(xs, f, i, j) + f(xs[i], xs[j])
  {
    RowItemsStep(xs, f, i, j);
    assert AllItems(xs, f, i) + (RowItems(xs, f, i, j) + f(xs[i], xs[j]))
        == (AllItems(xs, f, i) + RowItems(xs, f, i, j)) + f(xs[i], xs[j]);
  }

  lemma ScannedRow<T, E>(xs: seq<T>, f: (T, T) -> seq<E>, i: int)
    requires 0 <= i < |xs|
    ensures Scanned(xs, f, i, |xs|) == AllItems(xs, f, i + 1)
  {
  }

  /** `d = {}; for i in range(n): for j in range(i + 1, n): for x in f(xs[i], xs[j]): d[key(x)] = x`,
      with the dict's keys kept in insertion order. */
  method StorePairs<T, E, K(==,!new)>(xs: seq<T>, f: (T, T) -> seq<E>, key: E -> K)
    returns (keys: seq<K>, d: map<K, E>)
    ensures DictOf(keys, d, AllItems(xs, f, |xs|), key)
  {
    keys, d := [], map[];
    ghost var processed: seq<E> := [];
    var n := |xs|;
    var i := 0;
    while i < n
      invariant 0 <= i <= n
      invariant processed == AllItems(xs, f, i)
      invariant DictOf(keys, d, processed, key)
    {
      ScannedStart(xs, f, i);
      var j := i + 1;
      while j < n
        invariant i + 1 <= j <= n
        invariant processed == Scanned(xs, f, i, j)
        invariant DictOf(keys, d, processed, key)
      {
        var items := f(xs[i], xs[j]);
        keys, d := StoreAll(keys, d, processed, items, key);
        ScannedStep(xs, f, i, j);
        processed := processed + items;
        j := j + 1;
      }
      ScannedRow(xs, f, i);
      i := i + 1;
    }
  }
}
