/** The canonical record every source is normalised into, with the
    validation the schema applies on construction: every string (including
    the items of the two string lists) is whitespace-stripped, and the three
    identifying fields must then be non-empty. */
module CanonicalSchema {
  import opened Wrappers
  import opened Text

  datatype CanonicalObject = CanonicalObject(
    canonicalId: string,
    sourceSystem: string,
    sourceRecordType: string,
    title: string,
    content: string,
    startAt: Option<int>,
    endAt: Option<int>,
    dueAt: Option<int>,
    createdAt: Option<int>,
    updatedAt: Option<int>,
    people: seq<string>,
    labels: seq<string>,
    domain: string)

  predicate AllStripped(s: seq<string>) {
    forall i :: 0 <= i < |s| ==> IsStripped(s[i])
  }

  /** The invariant every constructed record satisfies. */
  predicate Valid(o: CanonicalObject) {
    o.canonicalId != [] && o.sourceSystem != [] && o.sourceRecordType != []
    && IsStripped(o.canonicalId) && IsStripped(o.sourceSystem) && IsStripped(o.sourceRecordType)
    && IsStripped(o.title) && IsStripped(o.content) && IsStripped(o.domain)
    && AllStripped(o.people) && AllStripped(o.labels)
  }

  function StripAll(s: seq<string>): (r: seq<string>)
    ensures |r| == |s| && AllStripped(r)
    ensures forall i :: 0 <= i < |s| ==> r[i] == Strip(s[i])
  {
    seq(|s|, i requires 0 <= i < |s| => StripIsStripped(s[i]); Strip(s[i]))
  }

  /** CanonicalObject(**fields): strips every string and rejects a record
      whose canonical_id, source_system or source_record_type is then empty
      (pydantic's ValidationError). */
  function Create(
    canonicalId: string, sourceSystem: string, sourceRecordType: string,
    title: string, content: string,
    startAt: Option<int>, endAt: Option<int>, dueAt: Option<int>,
    createdAt: Option<int>, updatedAt: Option<int>,
    people: seq<string>, labels: seq<string>, domain: string): (r: Result<CanonicalObject>)
    ensures r.Ok? <==> Strip(canonicalId) != [] && Strip(sourceSystem) != [] && Strip(sourceRecordType) != []
    ensures r.Ok? ==> Valid(r.value)
    ensures r.Ok? ==> r.value == CanonicalObject(
      Strip(canonicalId), Strip(sourceSystem), Strip(sourceRecordType),
      Strip(title), Strip(content), startAt, endAt, dueAt, createdAt, updatedAt,
      StripAll(people), StripAll(labels), Strip(domain))
  {
    var o := CanonicalObject(
      Strip(canonicalId), Strip(sourceSystem), Strip(sourceRecordType),
      Strip(title), Strip(content), startAt, endAt, dueAt, createdAt, updatedAt,
      StripAll(people), StripAll(labels), Strip(domain));
    StripIsStripped(canonicalId);
    StripIsStripped(sourceSystem);
    StripIsStripped(sourceRecordType);
    StripIsStripped(title);
    StripIsStripped(content);
    StripIsStripped(domain);
    if o.canonicalId == [] || o.sourceSystem == [] || o.sourceRecordType == [] then
      Err("ValidationError: String should have at least 1 character")
    else Ok(o)
  }

  /** CanonicalObject(canonical_id=..., source_system=..., source_record_type=...)
      with every other field at its default: empty title and content, no
      timestamps, no people or labels, domain "general". */
  function CreateDefault(canonicalId: string, sourceSystem: string, sourceRecordType: string): (r: Result<CanonicalObject>)
  {
    Create(canonicalId, sourceSystem, sourceRecordType, "", "", None, None, None, None, None, [], [], "general")
  }

  lemma {:induction false} DefaultsHold(canonicalId: string, sourceSystem: string, sourceRecordType: string)
    requires CreateDefault(canonicalId, sourceSystem, sourceRecordType).Ok?
    ensures var o := CreateDefault(canonicalId, sourceSystem, sourceRecordType).value;
      o.title == "" && o.content == "" && o.domain == "general" && o.people == [] && o.labels == []
      && o.startAt.None? && o.endAt.None? && o.dueAt.None? && o.createdAt.None? && o.updatedAt.None?
  {
    StripOfStripped("general");
    StripOfStripped("");
  }

  /** Re-validating a valid record changes nothing. */
  lemma {:induction false} CreateValidIsIdentity(o: CanonicalObject)
    requires Valid(o)
    ensures Create(o.canonicalId, o.sourceSystem, o.sourceRecordType, o.title, o.content,
                   o.startAt, o.endAt, o.dueAt, o.createdAt, o.updatedAt,
                   o.people, o.labels, o.domain) == Ok(o)
  {
    StripOfStripped(o.canonicalId);
    StripOfStripped(o.sourceSystem);
    StripOfStripped(o.sourceRecordType);
    StripOfStripped(o.title);
    StripOfStripped(o.content);
    StripOfStripped(o.domain);
    StripAllOfStripped(o.people);
    StripAllOfStripped(o.labels);
  }

  lemma StripAllOfStripped(s: seq<string>)
    requires AllStripped(s)
    ensures StripAll(s) == s
  {
    forall i | 0 <= i < |s| ensures StripAll(s)[i] == s[i] {
      StripOfStripped(s[i]);
    }
  }

  /** Values that are already trimmed and identifiers that are not blank
      pass validation unchanged. */
  lemma CreateOfStripped(
    canonicalId: string, sourceSystem: string, sourceRecordType: string,
    title: string, content: string,
    startAt: Option<int>, endAt: Option<int>, dueAt: Option<int>,
    createdAt: Option<int>, updatedAt: Option<int>,
    people: seq<string>, labels: seq<string>, domain: string)
    requires canonicalId != [] && sourceSystem != [] && sourceRecordType != []
    requires IsStripped(canonicalId) && IsStripped(sourceSystem) && IsStripped(sourceRecordType)
    requires IsStripped(title) && IsStripped(content) && IsStripped(domain)
    requires AllStripped(people) && AllStripped(labels)
    ensures Create(canonicalId, sourceSystem, sourceRecordType, title, content,
                   startAt, endAt, dueAt, createdAt, updatedAt, people, labels, domain)
         == Ok(CanonicalObject(canonicalId, sourceSystem, sourceRecordType, title, content,
                               startAt, endAt, dueAt, createdAt, updatedAt, people, labels, domain))
  {
    StripOfStripped(canonicalId);
    StripOfStripped(sourceSystem);
    StripOfStripped(sourceRecordType);
    StripOfStripped(title);
    StripOfStripped(content);
    StripOfStripped(domain);
    StripAllOfStripped(people);
    StripAllOfStripped(labels);
  }
}
