/** as_records: the common shapes of an export payload reduced to a list of
    dict records. */
module ExportLoader {
  import opened Wrappers
  import opened Collections
  import opened Json

  /** The name Python's type() prints for a scalar JSON value. */
  function TypeName(v: Json): string {
    match v
    case JNull => "NoneType"
    case JBool(_) => "bool"
    case JInt(_) => "int"
    case JFloat(_) => "float"
    case JStr(_) => "str"
    case JArr(_) => "list"
    case JObj(_) => "dict"
  }

  function UnsupportedPayload(v: Json): string {
    "TypeError: Unsupported JSON payload type: <class '" + TypeName(v) + "'>"
  }

  /** The key loop of as_records: the first preferred key whose value is a
      list, and that list. */
  function FirstList(d: Fields, keys: seq<string>): Option<seq<Json>> {
    if keys == [] then None
    else if Get(d, keys[0]).JArr? then Some(Get(d, keys[0]).items)
    else FirstList(d, keys[1..])
  }

  /** The loop finds nothing exactly when no preferred key holds a list, and
      otherwise stops at the first that does. */
  lemma {:induction false} FirstListCases(d: Fields, keys: seq<string>)
    ensures FirstList(d, keys).None? <==> forall i :: 0 <= i < |keys| ==> !Get(d, keys[i]).JArr?
    ensures FirstList(d, keys).Some? ==>
      exists i :: 0 <= i < |keys| && Get(d, keys[i]) == JArr(FirstList(d, keys).value)
                  && forall j :: 0 <= j < i ==> !Get(d, keys[j]).JArr?
  {
    if keys != [] && !Get(d, keys[0]).JArr? {
      var tail := keys[1..];
      FirstListCases(d, tail);
      assert forall i :: 1 <= i < |keys| ==> keys[i] == tail[i - 1];
      if FirstList(d, tail).Some? {
        var i :| 0 <= i < |tail| && Get(d, tail[i]) == JArr(FirstList(d, tail).value)
                 && forall j :: 0 <= j < i ==> !Get(d, tail[j]).JArr?;
        assert Get(d, keys[i + 1]) == JArr(FirstList(d, keys).value);
      }
    }
  }

  /** as_records */
  function AsRecords(payload: Json, preferredKeys: seq<string>): (r: Result<seq<Fields>>)
    ensures r.Err? <==> payload.JBool? || payload.JInt? || payload.JFloat? || payload.JStr?
    ensures r.Ok? && payload.JArr? ==> |r.value| <= |payload.items|
  {
    match payload
    case JNull => Ok([])
    case JArr(items) => Ok(DictsOf(items))
    case JObj(d) =>
      (match FirstList(d, preferredKeys)
       case Some(items) => Ok(DictsOf(items))
       case None => Ok([d]))
    case _ => Err(UnsupportedPayload(payload))
  }

  /** Only a scalar payload is refused, with its type in the message. */
  lemma AsRecordsFails(payload: Json, preferredKeys: seq<string>)
    ensures AsRecords(payload, preferredKeys).Err?
        <==> payload.JBool? || payload.JInt? || payload.JFloat? || payload.JStr?
    ensures AsRecords(payload, preferredKeys).Err? ==>
      AsRecords(payload, preferredKeys).error == UnsupportedPayload(payload)
  {
  }

  /** A missing payload has no records. */
  lemma AsRecordsNone(preferredKeys: seq<string>)
    ensures AsRecords(JNull, preferredKeys) == Ok([])
  {
  }

  /** A list payload gives exactly its dict elements, in list order. */
  lemma AsRecordsList(items: seq<Json>, preferredKeys: seq<string>)
    ensures AsRecords(JArr(items), preferredKeys).Ok?
    ensures var r := AsRecords(JArr(items), preferredKeys).value;
      (forall f :: f in r <==> JObj(f) in items)
      && exists idx :: Embeds(Wrapped(r), items, idx)
  {
    DictsOfInOrder(items);
  }

  /** A dict payload with a list under a preferred key gives the dict
      elements of the first such list, in order. */
  lemma AsRecordsWrapped(d: Fields, preferredKeys: seq<string>, i: int)
    requires 0 <= i < |preferredKeys| && Get(d, preferredKeys[i]).JArr?
    requires forall j :: 0 <= j < i ==> !Get(d, preferredKeys[j]).JArr?
    ensures var items := Get(d, preferredKeys[i]).items;
      AsRecords(JObj(d), preferredKeys) == Ok(DictsOf(items))
      && exists idx :: Embeds(Wrapped(DictsOf(items)), items, idx)
  {
    FirstListCases(d, preferredKeys);
    var r := FirstList(d, preferredKeys);
    var k :| 0 <= k < |preferredKeys| && Get(d, preferredKeys[k]) == JArr(r.value)
             && forall j :: 0 <= j < k ==> !Get(d, preferredKeys[j]).JArr?;
    assert k == i;
    DictsOfInOrder(Get(d, preferredKeys[i]).items);
  }

  /** A dict payload without such a list is itself the one record. */
  lemma AsRecordsSingle(d: Fields, preferredKeys: seq<string>)
    requires forall j :: 0 <= j < |preferredKeys| ==> !Get(d, preferredKeys[j]).JArr?
    ensures AsRecords(JObj(d), preferredKeys) == Ok([d])
  {
    FirstListCases(d, preferredKeys);
  }
}
