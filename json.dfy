/** The JSON-like values the ingestion and normalisation code receives from
    json.load, with the Python behaviours it relies on: truthiness, `dict.get`,
    `or`-fallback chains, `str()` and iteration. */
module Json {
  import opened Wrappers
  import opened Text
  import opened Collections

  /** A JSON value. An object keeps its members in document order; a key that
      occurs twice is looked up by its last binding, as json.load does. */
  datatype Json =
    | JNull
    | JBool(b: bool)
    | JInt(i: int)
    | JFloat(r: real)
    | JStr(s: string)
    | JArr(items: seq<Json>)
    | JObj(fields: seq<(string, Json)>)

  type Fields = seq<(string, Json)>

  function FieldName(f: (string, Json)): string {
    f.0
  }

  /** The keys of a dict, in insertion order and without repetition. */
  function Keys(d: Fields): (r: seq<string>)
    ensures Distinct(r)
    ensures forall k :: k in r <==> HasKey(d, FieldName, k)
  {
    KeysInOrderMembers(d, FieldName);
    KeysInOrder(d, FieldName)
  }

  /** d.get(k): the value bound to k, or None (JNull) when k is absent. */
  function Get(d: Fields, k: string): (r: Json)
    ensures !HasKey(d, FieldName, k) ==> r == JNull
    ensures HasKey(d, FieldName, k) ==> (k, r) == LastWith(d, FieldName, k)
  {
    if HasKey(d, FieldName, k) then LastWith(d, FieldName, k).1 else JNull
  }

  /** A later binding of a key shadows every earlier one. */
  lemma {:induction false} GetShadow(d: Fields, k: string, v: Json)
    ensures Get(d + [(k, v)], k) == v
  {
    assert FieldName((d + [(k, v)])[|d|]) == k;
  }

  /** Appending a binding of another key leaves the lookup of k unchanged. */
  lemma {:induction false} GetOther(d: Fields, k: string, k': string, v: Json)
    requires k != k'
    ensures Get(d + [(k', v)], k) == Get(d, k)
  {
    var d' := d + [(k', v)];
    assert d'[..|d|] == d;
    if HasKey(d, FieldName, k) {
      var i :| 0 <= i < |d| && FieldName(d[i]) == k;
      assert FieldName(d'[i]) == k;
    }
    if HasKey(d', FieldName, k) {
      var i :| 0 <= i < |d'| && FieldName(d'[i]) == k;
      assert i < |d| && FieldName(d[i]) == k;
    }
  }

  /** A binding that no later binding of the same key follows is the one
      the lookup returns. */
  lemma {:induction false} GetLast(d: Fields, i: int)
    requires 0 <= i < |d| && forall j :: i < j < |d| ==> d[j].0 != d[i].0
    ensures Get(d, d[i].0) == d[i].1
  {
    var n := |d| - 1;
    var init := d[..n];
    assert d == init + [d[n]];
    if i == n {
      GetShadow(init, d[n].0, d[n].1);
    } else {
      GetLast(init, i);
      GetOther(init, d[i].0, d[n].0, d[n].1);
    }
  }

  predicate IsNone(v: Json) {
    v.JNull?
  }

  /** Python's bool(v). */
  predicate Truthy(v: Json) {
    match v
    case JNull => false
    case JBool(b) => b
    case JInt(i) => i != 0
    case JFloat(r) => r != 0.0
    case JStr(s) => s != []
    case JArr(items) => items != []
    case JObj(fields) => fields != []
  }

  /** Python's `a or b`. */
  function Or(a: Json, b: Json): (r: Json)
    ensures r == a || r == b
    ensures Truthy(r) <==> Truthy(a) || Truthy(b)
    ensures Truthy(a) ==> r == a
  {
    if Truthy(a) then a else b
  }

  /** Python's `vs[0] or vs[1] or ... or vs[n-1]`: the first truthy operand,
      or the last operand when none is truthy. */
  function OrChain(vs: seq<Json>): (r: Json)
    requires |vs| > 0
    ensures r in vs
    ensures forall i :: 0 <= i < |vs| && Truthy(vs[i]) && (forall j :: 0 <= j < i ==> !Truthy(vs[j])) ==> r == vs[i]
    ensures (forall i :: 0 <= i < |vs| ==> !Truthy(vs[i])) ==> r == vs[|vs| - 1]
  {
    if |vs| == 1 then vs[0] else Or(vs[0], OrChain(vs[1..]))
  }

  /** `d.get(k1) or d.get(k2) or ... or fallback`. */
  function GetFirst(d: Fields, keys: seq<string>, fallback: Json): (r: Json)
    ensures Truthy(fallback) ==> Truthy(r)
    ensures forall i :: 0 <= i < |keys| && Truthy(Get(d, keys[i])) && (forall j :: 0 <= j < i ==> !Truthy(Get(d, keys[j]))) ==> r == Get(d, keys[i])
    ensures (forall i :: 0 <= i < |keys| ==> !Truthy(Get(d, keys[i]))) ==> r == fallback
  {
    if keys == [] then fallback else Or(Get(d, keys[0]), GetFirst(d, keys[1..], fallback))
  }

  /** A float rendered by str(). Python prints the shortest decimal that
      round-trips through IEEE doubles; the model prints an integral value
      with ".0" and any other value with six decimals. */
  function RealToString(r: real): string {
    if r == r.Floor as real then IntToString(r.Floor) + ".0" else FormatFixed(r, 6)
  }

  /** Python's str(v). Strings render as themselves; the elements of lists
      and dicts render through repr(), here without quote escaping. */
  function Str(v: Json): string {
    match v
    case JStr(s) => s
    case _ => Repr(v)
  }

  function Repr(v: Json): string {
    match v
    case JNull => "None"
    case JBool(b) => if b then "True" else "False"
    case JInt(i) => IntToString(i)
    case JFloat(r) => RealToString(r)
    case JStr(s) => "'" + s + "'"
    case JArr(items) => "[" + Join(", ", seq(|items|, k requires 0 <= k < |items| => Repr(items[k]))) + "]"
    case JObj(fields) =>
      "{" + Join(", ", seq(|fields|, k requires 0 <= k < |fields| => "'" + fields[k].0 + "': " + Repr(fields[k].1))) + "}"
  }

  /** str(d.get(k) or ""): a missing or falsy value reads as its str(),
      "" for a missing one. */
  function TextField(d: Fields, k: string): string {
    Str(Or(Get(d, k), JStr("")))
  }

  lemma StrOfString(s: string)
    ensures Str(JStr(s)) == s
  {
  }

  /** str(None) is "None": a missing value that reaches str() is not blank. */
  lemma StrOfNone()
    ensures Str(JNull) == "None"
  {
  }

  /** The elements a Python `for` loop visits: a list's items, a string's
      characters, a dict's keys; iterating a number, a bool or None raises
      TypeError. */
  function Iterate(v: Json): (r: Result<seq<Json>>)
    ensures r.Err? <==> v.JNull? || v.JBool? || v.JInt? || v.JFloat?
    ensures v.JArr? ==> r == Ok(v.items)
    ensures v.JStr? ==> r.Ok? && |r.value| == |v.s| && forall k :: 0 <= k < |v.s| ==> r.value[k] == JStr([v.s[k]])
  {
    match v
    case JArr(items) => Ok(items)
    case JStr(s) => Ok(seq(|s|, k requires 0 <= k < |s| => JStr([s[k]])))
    case JObj(fields) =>
      var ks := Keys(fields);
      Ok(seq(|ks|, k requires 0 <= k < |ks| => JStr(ks[k])))
    case _ => Err("TypeError: object is not iterable")
  }

  /** The dict elements of a list, in order: [x for x in items if isinstance(x, dict)]. */
  function DictsOf(items: seq<Json>): (r: seq<Fields>)
    ensures |r| <= |items|
    ensures forall f :: f in r <==> JObj(f) in items
  {
    if items == [] then []
    else
      var last := items[|items| - 1];
      var init := DictsOf(items[..|items| - 1]);
      assert items == items[..|items| - 1] + [last];
      if last.JObj? then init + [last.fields] else init
  }

  lemma {:induction false} DictsOfSnoc(items: seq<Json>, x: Json)
    ensures DictsOf(items + [x]) == DictsOf(items) + (if x.JObj? then [x.fields] else [])
  {
    assert (items + [x])[..|items|] == items;
  }

  predicate IsDict(v: Json) {
    v.JObj?
  }

  /** The dicts, as JSON values again. */
  function Wrapped(ds: seq<Fields>): seq<Json> {
    seq(|ds|, k requires 0 <= k < |ds| => JObj(ds[k]))
  }

  /** DictsOf is the comprehension that keeps the dict elements. */
  lemma {:induction false} DictsOfIsFilter(items: seq<Json>)
    ensures Wrapped(DictsOf(items)) == Filter(items, IsDict)
  {
    if items != [] {
      var n := |items| - 1;
      DictsOfIsFilter(items[..n]);
      DictsOfSnoc(items[..n], items[n]);
      assert items == items[..n] + [items[n]];
      var d0 := DictsOf(items[..n]);
      if items[n].JObj? {
        assert Wrapped(d0 + [items[n].fields]) == Wrapped(d0) + [items[n]];
      }
    }
  }

  /** The dict elements keep their order in the list. */
  lemma DictsOfInOrder(items: seq<Json>)
    ensures exists idx :: Embeds(Wrapped(DictsOf(items)), items, idx)
  {
    DictsOfIsFilter(items);
    FilterInOrder(items, IsDict);
    assert Embeds(Wrapped(DictsOf(items)), items, FilterIndices(items, IsDict));
  }
}
