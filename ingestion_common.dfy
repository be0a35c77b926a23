/** Helpers shared by the three export mappers: parse_datetime,
    normalize_string_list, and the `or`-fallback field reads every mapper
    repeats. */
module IngestionCommon {
  import opened Wrappers
  import opened Text
  import opened Collections
  import opened Json
  import opened Timestamps
  import opened CanonicalSchema

  /** Above this a number is read as epoch milliseconds. */
  const MillisThreshold: int := 10_000_000_000

  /** parse_datetime on a JSON value: None stays absent; numbers (and
      booleans, which Python counts as ints) are epoch seconds, or epoch
      milliseconds above the threshold, floored to whole seconds; strings
      go through the ISO text parser; anything else is absent. */
  function ParseDateTime(v: Json): (r: Option<int>)
    ensures r.None? <==> v.JNull? || v.JArr? || v.JObj? || (v.JStr? && ParseIsoText(v.s).None?)
    ensures v.JInt? && v.i <= MillisThreshold ==> r == Some(v.i)
  {
    match v
    case JNull => None
    case JBool(b) => Some(if b then 1 else 0)
    case JInt(i) => Some(if i > MillisThreshold then i / 1000 else i)
    case JFloat(r) => Some(if r > MillisThreshold as real then (r / 1000.0).Floor else r.Floor)
    case JStr(s) => ParseIsoText(s)
    case _ => None
  }

  /** The values that are never an instant: None, blank strings, lists and
      dicts. */
  lemma ParseDateTimeAbsent(v: Json)
    requires v.JNull? || v.JArr? || v.JObj? || (v.JStr? && Strip(v.s) == [])
    ensures ParseDateTime(v) == None
  {
  }

  /** A number above the threshold is read as epoch milliseconds. The model
      floors instants to whole seconds, so a millisecond value and its count
      of whole seconds give the same instant here; Python keeps the fraction
      of a second. */
  lemma ParseDateTimeMillis(seconds: int, millis: int)
    requires 10_000_000 < seconds <= MillisThreshold && 0 <= millis < 1000
    ensures ParseDateTime(JInt(seconds * 1000 + millis)) == ParseDateTime(JInt(seconds)) == Some(seconds)
  {
    assert (seconds * 1000 + millis) / 1000 == seconds;
  }

  /** The epoch value of the pipeline's tests is read as seconds. */
  lemma ParseDateTimeSeconds()
    ensures ParseDateTime(JInt(1_706_000_000)) == Some(1_706_000_000)
  {
  }

  /** An element normalize_string_list keeps. */
  predicate Kept(v: Json) {
    !v.JNull? && Strip(Str(v)) != []
  }

  /** What it keeps of such an element. */
  function ItemText(v: Json): string {
    Strip(Str(v))
  }

  /** normalize_string_list */
  function NormalizeStringList(values: seq<Json>): seq<string> {
    if values == [] then []
    else
      var init := NormalizeStringList(values[..|values| - 1]);
      var v := values[|values| - 1];
      if Kept(v) then init + [ItemText(v)] else init
  }

  lemma NormalizeStringListSnoc(values: seq<Json>, v: Json)
    ensures NormalizeStringList(values + [v])
         == NormalizeStringList(values) + (if Kept(v) then [ItemText(v)] else [])
  {
    assert (values + [v])[..|values|] == values;
  }

  /** The loop of normalize_string_list. */
  method NormalizeStrings(values: seq<Json>) returns (normalized: seq<string>)
    ensures normalized == NormalizeStringList(values)
  {
    normalized := [];
    for i := 0 to |values|
      invariant normalized == NormalizeStringList(values[..i])
    {
      var value := values[i];
      NormalizeStringListSnoc(values[..i], value);
      assert values[..i + 1] == values[..i] + [value];
      if value.JNull? {
        continue;
      }
      var text := Strip(Str(value));
      if text != [] {
        normalized := normalized + [text];
      }
    }
    assert values[..|values|] == values;
  }

  function ItemTexts(values: seq<Json>): seq<string> {
    seq(|values|, i requires 0 <= i < |values| => ItemText(values[i]))
  }

  /** The list is the trimmed text of the kept elements, one each, in input
      order. */
  lemma {:induction false} NormalizeStringListIsFilter(values: seq<Json>)
    ensures NormalizeStringList(values) == ItemTexts(Filter(values, Kept))
  {
    if values != [] {
      var init := values[..|values| - 1];
      var v := values[|values| - 1];
      NormalizeStringListIsFilter(init);
      var f := Filter(init, Kept);
      assert Filter(values, Kept) == f + (if Kept(v) then [v] else []);
      if Kept(v) {
        assert ItemTexts(f + [v]) == ItemTexts(f) + [ItemText(v)];
      }
    }
  }

  /** No longer than its input, and every element non-empty and already
      trimmed. */
  lemma {:induction false} NormalizeStringListShape(values: seq<Json>)
    ensures |NormalizeStringList(values)| <= |values|
    ensures forall k :: 0 <= k < |NormalizeStringList(values)| ==>
      NormalizeStringList(values)[k] != [] && IsStripped(NormalizeStringList(values)[k])
  {
    if values != [] {
      var init := values[..|values| - 1];
      var v := values[|values| - 1];
      NormalizeStringListShape(init);
      var r0 := NormalizeStringList(init);
      if Kept(v) {
        StripIsStripped(Str(v));
        var r := r0 + [ItemText(v)];
        assert forall k :: 0 <= k < |r0| ==> r[k] == r0[k];
      }
    }
  }

  /** A string that is already trimmed and not blank is kept as it is. */
  lemma KeptText(t: string)
    requires t != [] && IsStripped(t)
    ensures Kept(JStr(t)) && ItemText(JStr(t)) == t
  {
    StripOfStripped(t);
  }

  /** Every kept element's text is in the list, and nothing else is. */
  lemma NormalizeStringListMembers(values: seq<Json>, x: string)
    ensures x in NormalizeStringList(values) <==> exists v :: v in values && Kept(v) && ItemText(v) == x
  {
    NormalizeStringListIsFilter(values);
    ImageMembers(Filter(values, Kept), ItemText, ItemTexts(Filter(values, Kept)));
  }

  /** `str(raw.get(k1) or raw.get(k2) or ... or fallback).strip()` */
  function TextOr(raw: Fields, keys: seq<string>, fallback: string): string {
    Strip(Str(GetFirst(raw, keys, JStr(fallback))))
  }

  /** `str(raw.get(k1) or ... or fallback).strip() or fallback`: never
      blank when the fallback is not. */
  function TextOrDefault(raw: Fields, keys: seq<string>, fallback: string): (r: string)
    ensures fallback != [] ==> r != []
    ensures r == fallback || r == TextOr(raw, keys, fallback)
  {
    var text := TextOr(raw, keys, fallback);
    if text == [] then fallback else text
  }

  /** With none of the keys holding a truthy value, the (stripped) fallback
      is used. */
  lemma TextOrDefaultAbsent(raw: Fields, keys: seq<string>, fallback: string)
    requires IsStripped(fallback)
    requires forall i :: 0 <= i < |keys| ==> !Truthy(Get(raw, keys[i]))
    ensures TextOrDefault(raw, keys, fallback) == fallback
  {
    StripOfStripped(fallback);
  }

  /** With the first key holding a string that is not blank, that string
      trimmed is used. */
  lemma TextOrDefaultFirst(raw: Fields, keys: seq<string>, fallback: string, s: string)
    requires keys != [] && Get(raw, keys[0]) == JStr(s) && Strip(s) != []
    ensures TextOrDefault(raw, keys, fallback) == Strip(s)
  {
  }

  /** `normalize_string_list(raw.get(k1) or raw.get(k2) or [])`: iterating
      a number or a boolean raises TypeError. */
  function StringListOr(raw: Fields, keys: seq<string>): Result<seq<string>> {
    match Iterate(GetFirst(raw, keys, JArr([])))
    case Err(e) => Err(e)
    case Ok(items) => Ok(NormalizeStringList(items))
  }

  /** A list value is normalised element by element; absent keys give the
      empty list. */
  lemma StringListOrCases(raw: Fields, keys: seq<string>)
    ensures (forall i :: 0 <= i < |keys| ==> !Truthy(Get(raw, keys[i]))) ==> StringListOr(raw, keys) == Ok([])
    ensures GetFirst(raw, keys, JArr([])).JArr? ==>
      StringListOr(raw, keys) == Ok(NormalizeStringList(GetFirst(raw, keys, JArr([])).items))
  {
  }

  /** `[f(x) for x in xs]` where f may raise: the first failure ends the
      comprehension. */
  function MapAll<T, U>(xs: seq<T>, f: T -> Result<U>): Result<seq<U>> {
    if xs == [] then Ok([])
    else
      match f(xs[0])
      case Err(e) => Err(e)
      case Ok(y) =>
        match MapAll(xs[1..], f)
        case Err(e) => Err(e)
        case Ok(ys) => Ok([y] + ys)
  }

  /** A comprehension over mappers succeeds exactly when every element maps,
      and then keeps length and order; otherwise it fails with the first
      failure's message. */
  lemma {:induction false} MapAllCases<T, U>(xs: seq<T>, f: T -> Result<U>)
    ensures MapAll(xs, f).Ok? <==> forall i :: 0 <= i < |xs| ==> f(xs[i]).Ok?
    ensures MapAll(xs, f).Ok? ==>
      |MapAll(xs, f).value| == |xs| && forall i :: 0 <= i < |xs| ==> f(xs[i]) == Ok(MapAll(xs, f).value[i])
    ensures MapAll(xs, f).Err? ==>
      exists i :: 0 <= i < |xs| && f(xs[i]).Err? && MapAll(xs, f).error == f(xs[i]).error
                && forall j :: 0 <= j < i ==> f(xs[j]).Ok?
  {
    if xs != [] {
      MapAllCases(xs[1..], f);
      var tail := xs[1..];
      assert forall i :: 1 <= i < |xs| ==> xs[i] == tail[i - 1];
      if f(xs[0]).Ok? && MapAll(tail, f).Err? {
        var i :| 0 <= i < |tail| && f(tail[i]).Err? && MapAll(tail, f).error == f(tail[i]).error
                 && forall j :: 0 <= j < i ==> f(tail[j]).Ok?;
        assert xs[i + 1] == tail[i];
        forall j | 0 <= j < i + 1 ensures f(xs[j]).Ok? {
          if j > 0 {
            assert xs[j] == tail[j - 1];
          }
        }
      }
      if !f(xs[0]).Ok? {
        assert f(xs[0]).Err?;
      }
    }
  }

  /** The mapped strings are already trimmed. */
  lemma TextOrStripped(raw: Fields, keys: seq<string>, fallback: string)
    ensures IsStripped(TextOr(raw, keys, fallback))
  {
    StripIsStripped(Str(GetFirst(raw, keys, JStr(fallback))));
  }

  lemma TextOrDefaultStripped(raw: Fields, keys: seq<string>, fallback: string)
    requires IsStripped(fallback)
    ensures IsStripped(TextOrDefault(raw, keys, fallback))
  {
    TextOrStripped(raw, keys, fallback);
  }

  lemma StringListStripped(raw: Fields, keys: seq<string>)
    requires StringListOr(raw, keys).Ok?
    ensures AllStripped(StringListOr(raw, keys).value)
  {
    NormalizeStringListShape(Iterate(GetFirst(raw, keys, JArr([]))).value);
  }
}
