/** Google Calendar export events mapped to canonical records. */
module CalendarMapper {
  import opened Wrappers
  import opened Text
  import opened Collections
  import opened Json
  import opened DeterministicId
  import opened CanonicalSchema
  import opened IngestionCommon

  const SourceSystem := "google_calendar"
  const SourceRecordType := "event"

  const IdKeys := ["id", "event_id", "iCalUID", "summary", "created"]
  const TitleKeys := ["summary", "title"]
  const ContentKeys := ["description", "content"]
  const LabelKeys := ["labels"]
  const DomainKeys := ["calendar", "domain"]

  /** _source_event_id: the first truthy id-like field, as text. */
  function SourceEventId(raw: Fields): string {
    Str(GetFirst(raw, IdKeys, JStr("unknown_event")))
  }

  /** Without any id-like field the id is "unknown_event"; otherwise the
      first truthy one wins. */
  lemma SourceEventIdCases(raw: Fields)
    ensures (forall i :: 0 <= i < |IdKeys| ==> !Truthy(Get(raw, IdKeys[i]))) ==> SourceEventId(raw) == "unknown_event"
    ensures forall i :: 0 <= i < |IdKeys| && Truthy(Get(raw, IdKeys[i]))
                        && (forall j :: 0 <= j < i ==> !Truthy(Get(raw, IdKeys[j])))
                        ==> SourceEventId(raw) == Str(Get(raw, IdKeys[i]))
  {
  }

  /** _extract_event_time: a dict is read as Google's {"dateTime": ...} or
      all-day {"date": ...} shape; any other value is passed on as it is. */
  function ExtractEventTime(rawTime: Json): Json {
    match rawTime
    case JObj(fields) => Or(Get(fields, "dateTime"), Get(fields, "date"))
    case _ => rawTime
  }

  /** A timed event's instant comes from "dateTime", an all-day event's from
      "date"; a value that is not a dict is parsed directly. */
  lemma ExtractEventTimeCases(rawTime: Json)
    ensures !rawTime.JObj? ==> ParseDateTime(ExtractEventTime(rawTime)) == ParseDateTime(rawTime)
    ensures rawTime.JObj? && Truthy(Get(rawTime.fields, "dateTime")) ==>
      ParseDateTime(ExtractEventTime(rawTime)) == ParseDateTime(Get(rawTime.fields, "dateTime"))
    ensures rawTime.JObj? && !Truthy(Get(rawTime.fields, "dateTime")) ==>
      ParseDateTime(ExtractEventTime(rawTime)) == ParseDateTime(Get(rawTime.fields, "date"))
  {
  }

  /** A dict holding neither key has no instant. */
  lemma ExtractEventTimeMissing(fields: Fields)
    requires Get(fields, "dateTime") == JNull && Get(fields, "date") == JNull
    ensures ParseDateTime(ExtractEventTime(JObj(fields))) == None
  {
  }

  /** `attendee.get("email")` for each attendee that is a dict. */
  function Emails(attendees: seq<Fields>): seq<Json> {
    seq(|attendees|, k requires 0 <= k < |attendees| => Email(attendees[k]))
  }

  /** The people of an event: the e-mail addresses of its dict attendees,
      normalised; iterating a number or a boolean raises TypeError. */
  function Attendees(raw: Fields): Result<seq<string>> {
    match Iterate(Or(Get(raw, "attendees"), JArr([])))
    case Err(e) => Err(e)
    case Ok(items) => Ok(NormalizeStringList(Emails(DictsOf(items))))
  }

  /** A person is listed exactly when some dict attendee's e-mail, trimmed,
      is that person and is not blank; attendees that are not dicts are
      skipped. */
  lemma AttendeesMembers(raw: Fields, x: string)
    requires Attendees(raw).Ok?
    ensures var items := Iterate(Or(Get(raw, "attendees"), JArr([]))).value;
      x in Attendees(raw).value
      <==> exists d :: JObj(d) in items && Kept(Get(d, "email")) && ItemText(Get(d, "email")) == x
  {
    var items := Iterate(Or(Get(raw, "attendees"), JArr([]))).value;
    var ds := DictsOf(items);
    var es := Emails(ds);
    NormalizeStringListMembers(es, x);
    EmailsMembers(ds);
    if x in Attendees(raw).value {
      var v :| v in es && Kept(v) && ItemText(v) == x;
      var d :| d in ds && v == Email(d);
      assert JObj(d) in items;
    }
  }

  function Email(attendee: Fields): Json {
    Get(attendee, "email")
  }

  lemma EmailsMembers(attendees: seq<Fields>)
    ensures forall v :: v in Emails(attendees) <==> exists d :: d in attendees && v == Email(d)
  {
    ImageMembers(attendees, Email, Emails(attendees));
  }

  /** The event of the mapper's test: two attendees with addresses become
      the people, in attendee order. */
  lemma TwoAttendees(raw: Fields, a: string, b: string)
    requires Get(raw, "attendees") == JArr([JObj([("email", JStr(a))]), JObj([("email", JStr(b))])])
    requires a != [] && IsStripped(a) && b != [] && IsStripped(b)
    ensures Attendees(raw) == Ok([a, b])
  {
    var items := [JObj([("email", JStr(a))]), JObj([("email", JStr(b))])];
    assert Iterate(Or(Get(raw, "attendees"), JArr([]))) == Ok(items);
    TwoEmails(a, b);
    NormalizeTwoTexts(a, b);
  }

  lemma NormalizeTwoTexts(a: string, b: string)
    requires a != [] && IsStripped(a) && b != [] && IsStripped(b)
    ensures NormalizeStringList([JStr(a), JStr(b)]) == [a, b]
  {
    KeptText(a);
    KeptText(b);
    NormalizeStringListSnoc([], JStr(a));
    NormalizeStringListSnoc([JStr(a)], JStr(b));
    assert [] + [JStr(a)] == [JStr(a)] && [JStr(a)] + [JStr(b)] == [JStr(a), JStr(b)];
  }

  lemma TwoEmails(a: string, b: string)
    ensures Emails(DictsOf([JObj([("email", JStr(a))]), JObj([("email", JStr(b))])])) == [JStr(a), JStr(b)]
  {
    var da, db := [("email", JStr(a))], [("email", JStr(b))];
    var items := [JObj(da), JObj(db)];
    DictsOfSnoc([JObj(da)], JObj(db));
    DictsOfSnoc([], JObj(da));
    assert [] + [JObj(da)] == [JObj(da)] && [JObj(da)] + [JObj(db)] == items;
    assert DictsOf(items) == [da, db];
    GetShadow([], "email", JStr(a));
    GetShadow([], "email", JStr(b));
    assert [] + [("email", JStr(a))] == da && [] + [("email", JStr(b))] == db;
  }

  /** map_event: fails only where iterating the attendees or the labels
      raises, the attendees first. */
  function MapEvent(raw: Fields): (r: Result<CanonicalObject>)
    ensures r.Ok? ==> Valid(r.value)
    ensures r.Ok? ==> Attendees(raw).Ok? && StringListOr(raw, LabelKeys).Ok?
  {
    var people := Attendees(raw);
    var labels := StringListOr(raw, LabelKeys);
    if people.Err? then Err(people.error)
    else if labels.Err? then Err(labels.error)
    else Create(
      MakeCanonicalId(SourceSystem, SourceRecordType, SourceEventId(raw)),
      SourceSystem, SourceRecordType,
      TextOr(raw, TitleKeys, ""), TextOr(raw, ContentKeys, ""),
      ParseDateTime(ExtractEventTime(Get(raw, "start"))),
      ParseDateTime(ExtractEventTime(Get(raw, "end"))),
      None,
      ParseDateTime(Get(raw, "created")),
      ParseDateTime(Get(raw, "updated")),
      people.value, labels.value,
      TextOrDefault(raw, DomainKeys, "calendar"))
  }

  /** An event maps exactly when its attendees and labels can be iterated;
      a failure of the attendees is the one reported. */
  lemma MapEventFails(raw: Fields)
    ensures MapEvent(raw).Err? <==> Attendees(raw).Err? || StringListOr(raw, LabelKeys).Err?
    ensures Attendees(raw).Err? ==> MapEvent(raw) == Err(Attendees(raw).error)
  {
    if Attendees(raw).Ok? && StringListOr(raw, LabelKeys).Ok? {
      MapEventFields(raw);
    }
  }

  /** The record an event maps to: its id derived from the source id, the
      calendar source and type, trimmed title and content, start and end
      read through _extract_event_time, no due instant, the normalised
      people and labels, and a domain that falls back to "calendar". */
  lemma MapEventFields(raw: Fields)
    requires Attendees(raw).Ok? && StringListOr(raw, LabelKeys).Ok?
    ensures MapEvent(raw).Ok?
    ensures var o := MapEvent(raw).value;
      o.canonicalId == MakeCanonicalId(SourceSystem, SourceRecordType, SourceEventId(raw))
      && o.sourceSystem == "google_calendar" && o.sourceRecordType == "event"
      && o.title == TextOr(raw, TitleKeys, "") && o.content == TextOr(raw, ContentKeys, "")
      && o.startAt == ParseDateTime(ExtractEventTime(Get(raw, "start")))
      && o.endAt == ParseDateTime(ExtractEventTime(Get(raw, "end")))
      && o.dueAt == None
      && o.createdAt == ParseDateTime(Get(raw, "created"))
      && o.updatedAt == ParseDateTime(Get(raw, "updated"))
      && o.people == Attendees(raw).value
      && o.labels == StringListOr(raw, LabelKeys).value
      && o.domain == TextOrDefault(raw, DomainKeys, "calendar") && o.domain != []
      && Valid(o)
  {
    var id := MakeCanonicalId(SourceSystem, SourceRecordType, SourceEventId(raw));
    CanonicalIdStripped(SourceSystem, SourceRecordType, SourceEventId(raw));
    CreateOfMapped(raw, id);
  }

  lemma SourceNamesStripped()
    ensures SourceSystem != [] && IsStripped(SourceSystem)
    ensures SourceRecordType != [] && IsStripped(SourceRecordType)
  {
    assert SourceSystem[0] == 'g' && SourceSystem[|SourceSystem| - 1] == 'r';
    assert SourceRecordType[0] == 'e' && SourceRecordType[|SourceRecordType| - 1] == 't';
  }

  /** With a trimmed, non-blank id the schema accepts the mapped fields as
      they are. */
  lemma CreateOfMapped(raw: Fields, id: string)
    requires Attendees(raw).Ok? && StringListOr(raw, LabelKeys).Ok?
    requires id != [] && IsStripped(id)
    ensures Create(id, SourceSystem, SourceRecordType,
                   TextOr(raw, TitleKeys, ""), TextOr(raw, ContentKeys, ""),
                   ParseDateTime(ExtractEventTime(Get(raw, "start"))),
                   ParseDateTime(ExtractEventTime(Get(raw, "end"))),
                   None,
                   ParseDateTime(Get(raw, "created")), ParseDateTime(Get(raw, "updated")),
                   Attendees(raw).value, StringListOr(raw, LabelKeys).value,
                   TextOrDefault(raw, DomainKeys, "calendar"))
         == Ok(CanonicalObject(id, SourceSystem, SourceRecordType,
                   TextOr(raw, TitleKeys, ""), TextOr(raw, ContentKeys, ""),
                   ParseDateTime(ExtractEventTime(Get(raw, "start"))),
                   ParseDateTime(ExtractEventTime(Get(raw, "end"))),
                   None,
                   ParseDateTime(Get(raw, "created")), ParseDateTime(Get(raw, "updated")),
                   Attendees(raw).value, StringListOr(raw, LabelKeys).value,
                   TextOrDefault(raw, DomainKeys, "calendar")))
  {
    MappedFieldsStripped(raw);
    SourceNamesStripped();
    CreateOfStripped(id, SourceSystem, SourceRecordType,
                     TextOr(raw, TitleKeys, ""), TextOr(raw, ContentKeys, ""),
                     ParseDateTime(ExtractEventTime(Get(raw, "start"))),
                     ParseDateTime(ExtractEventTime(Get(raw, "end"))),
                     None,
                     ParseDateTime(Get(raw, "created")), ParseDateTime(Get(raw, "updated")),
                     Attendees(raw).value, StringListOr(raw, LabelKeys).value,
                     TextOrDefault(raw, DomainKeys, "calendar"));
  }

  /** Every string the mapper hands to the schema is already trimmed. */
  lemma MappedFieldsStripped(raw: Fields)
    requires Attendees(raw).Ok? && StringListOr(raw, LabelKeys).Ok?
    ensures IsStripped(TextOr(raw, TitleKeys, "")) && IsStripped(TextOr(raw, ContentKeys, ""))
    ensures IsStripped(TextOrDefault(raw, DomainKeys, "calendar"))
    ensures AllStripped(Attendees(raw).value) && AllStripped(StringListOr(raw, LabelKeys).value)
  {
    var items := Iterate(Or(Get(raw, "attendees"), JArr([]))).value;
    NormalizeStringListShape(Emails(DictsOf(items)));
    StringListStripped(raw, LabelKeys);
    TextOrStripped(raw, TitleKeys, "");
    TextOrStripped(raw, ContentKeys, "");
    TextOrDefaultStripped(raw, DomainKeys, "calendar");
  }

  /** map_events: one record per event, in order. */
  function MapEvents(rawExport: seq<Fields>): Result<seq<CanonicalObject>> {
    MapAll(rawExport, MapEvent)
  }
}
