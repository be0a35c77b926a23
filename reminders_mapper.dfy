/** Apple Reminders export records mapped to canonical records. */
module RemindersMapper {
  import opened Wrappers
  import opened Text
  import opened Json
  import opened Timestamps
  import opened DeterministicId
  import opened CanonicalSchema
  import opened IngestionCommon

  const SourceSystem := "apple_reminders"
  const SourceRecordType := "reminder"

  const IdKeys := ["id", "reminder_id", "identifier", "uuid", "title", "createdDate"]
  const TitleKeys := ["title", "name"]
  const ContentKeys := ["notes", "content"]
  const LabelKeys := ["tags", "labels"]
  const PeopleKeys := ["assignees", "people"]
  const DomainKeys := ["list", "domain"]

  /** _source_reminder_id: the first truthy id-like field, as text. */
  function SourceReminderId(raw: Fields): string {
    Str(GetFirst(raw, IdKeys, JStr("unknown_reminder")))
  }

  /** Without any id-like field the id is "unknown_reminder"; otherwise the
      first truthy one wins. */
  lemma SourceReminderIdCases(raw: Fields)
    ensures (forall i :: 0 <= i < |IdKeys| ==> !Truthy(Get(raw, IdKeys[i]))) ==> SourceReminderId(raw) == "unknown_reminder"
    ensures forall i :: 0 <= i < |IdKeys| && Truthy(Get(raw, IdKeys[i]))
                        && (forall j :: 0 <= j < i ==> !Truthy(Get(raw, IdKeys[j])))
                        ==> SourceReminderId(raw) == Str(Get(raw, IdKeys[i]))
  {
  }

  /** map_reminder: fails only where iterating the tags or the people raises. */
  function MapReminder(raw: Fields): (r: Result<CanonicalObject>)
    ensures r.Ok? ==> Valid(r.value)
    ensures r.Ok? ==> StringListOr(raw, LabelKeys).Ok? && StringListOr(raw, PeopleKeys).Ok?
  {
    var labels := StringListOr(raw, LabelKeys);
    var people := StringListOr(raw, PeopleKeys);
    if labels.Err? then Err(labels.error)
    else if people.Err? then Err(people.error)
    else Create(
      MakeCanonicalId(SourceSystem, SourceRecordType, SourceReminderId(raw)),
      SourceSystem, SourceRecordType,
      TextOr(raw, TitleKeys, ""), TextOr(raw, ContentKeys, ""),
      None, None, ParseDateTime(Or(Get(raw, "dueDate"), Get(raw, "due_at"))),
      ParseDateTime(Or(Get(raw, "createdDate"), Get(raw, "created_at"))),
      ParseDateTime(Or(Get(raw, "modifiedDate"), Get(raw, "updated_at"))),
      people.value, labels.value,
      TextOrDefault(raw, DomainKeys, "tasks"))
  }

  /** A reminder maps exactly when its tags and people can be iterated; a
      failure of the tags is the one reported. */
  lemma MapReminderFails(raw: Fields)
    ensures MapReminder(raw).Err? <==> StringListOr(raw, LabelKeys).Err? || StringListOr(raw, PeopleKeys).Err?
    ensures StringListOr(raw, LabelKeys).Err? ==> MapReminder(raw) == Err(StringListOr(raw, LabelKeys).error)
  {
    if StringListOr(raw, LabelKeys).Ok? && StringListOr(raw, PeopleKeys).Ok? {
      MapReminderFields(raw);
    }
  }

  /** The record a reminder maps to: its id derived from the source id,
      the reminders source and type, trimmed title and notes, the due,
      created and modified instants, the normalised assignees and tags, and
      a domain that falls back to "tasks". */
  lemma MapReminderFields(raw: Fields)
    requires StringListOr(raw, LabelKeys).Ok? && StringListOr(raw, PeopleKeys).Ok?
    ensures MapReminder(raw).Ok?
    ensures var o := MapReminder(raw).value;
      o.canonicalId == MakeCanonicalId(SourceSystem, SourceRecordType, SourceReminderId(raw))
      && o.sourceSystem == "apple_reminders" && o.sourceRecordType == "reminder"
      && o.title == TextOr(raw, TitleKeys, "") && o.content == TextOr(raw, ContentKeys, "")
      && o.startAt == None && o.endAt == None
      && o.dueAt == ParseDateTime(Or(Get(raw, "dueDate"), Get(raw, "due_at")))
      && o.createdAt == ParseDateTime(Or(Get(raw, "createdDate"), Get(raw, "created_at")))
      && o.updatedAt == ParseDateTime(Or(Get(raw, "modifiedDate"), Get(raw, "updated_at")))
      && o.people == StringListOr(raw, PeopleKeys).value
      && o.labels == StringListOr(raw, LabelKeys).value
      && o.domain == TextOrDefault(raw, DomainKeys, "tasks") && o.domain != []
      && Valid(o)
  {
    var id := MakeCanonicalId(SourceSystem, SourceRecordType, SourceReminderId(raw));
    CanonicalIdStripped(SourceSystem, SourceRecordType, SourceReminderId(raw));
    CreateOfMapped(raw, id);
  }

  lemma SourceNamesStripped()
    ensures SourceSystem != [] && IsStripped(SourceSystem)
    ensures SourceRecordType != [] && IsStripped(SourceRecordType)
  {
    assert SourceSystem[0] == 'a' && SourceSystem[|SourceSystem| - 1] == 's';
    assert SourceRecordType[0] == 'r' && SourceRecordType[|SourceRecordType| - 1] == 'r';
  }

  /** With a trimmed, non-blank id the schema accepts the mapped fields as
      they are. */
  lemma CreateOfMapped(raw: Fields, id: string)
    requires StringListOr(raw, LabelKeys).Ok? && StringListOr(raw, PeopleKeys).Ok?
    requires id != [] && IsStripped(id)
    ensures Create(id, SourceSystem, SourceRecordType,
                   TextOr(raw, TitleKeys, ""), TextOr(raw, ContentKeys, ""),
                   None, None, ParseDateTime(Or(Get(raw, "dueDate"), Get(raw, "due_at"))),
                   ParseDateTime(Or(Get(raw, "createdDate"), Get(raw, "created_at"))),
                   ParseDateTime(Or(Get(raw, "modifiedDate"), Get(raw, "updated_at"))),
                   StringListOr(raw, PeopleKeys).value, StringListOr(raw, LabelKeys).value,
                   TextOrDefault(raw, DomainKeys, "tasks"))
         == Ok(CanonicalObject(id, SourceSystem, SourceRecordType,
                   TextOr(raw, TitleKeys, ""), TextOr(raw, ContentKeys, ""),
                   None, None, ParseDateTime(Or(Get(raw, "dueDate"), Get(raw, "due_at"))),
                   ParseDateTime(Or(Get(raw, "createdDate"), Get(raw, "created_at"))),
                   ParseDateTime(Or(Get(raw, "modifiedDate"), Get(raw, "updated_at"))),
                   StringListOr(raw, PeopleKeys).value, StringListOr(raw, LabelKeys).value,
                   TextOrDefault(raw, DomainKeys, "tasks")))
  {
    MappedFieldsStripped(raw);
    SourceNamesStripped();
    CreateOfStripped(id, SourceSystem, SourceRecordType,
                     TextOr(raw, TitleKeys, ""), TextOr(raw, ContentKeys, ""),
                     None, None, ParseDateTime(Or(Get(raw, "dueDate"), Get(raw, "due_at"))),
                     ParseDateTime(Or(Get(raw, "createdDate"), Get(raw, "created_at"))),
                     ParseDateTime(Or(Get(raw, "modifiedDate"), Get(raw, "updated_at"))),
                     StringListOr(raw, PeopleKeys).value, StringListOr(raw, LabelKeys).value,
                     TextOrDefault(raw, DomainKeys, "tasks"));
  }

  /** Every string the mapper hands to the schema is already trimmed, so
      the schema's stripping changes none of them. */
  lemma MappedFieldsStripped(raw: Fields)
    requires StringListOr(raw, LabelKeys).Ok? && StringListOr(raw, PeopleKeys).Ok?
    ensures IsStripped(TextOr(raw, TitleKeys, "")) && IsStripped(TextOr(raw, ContentKeys, ""))
    ensures IsStripped(TextOrDefault(raw, DomainKeys, "tasks"))
    ensures AllStripped(StringListOr(raw, PeopleKeys).value) && AllStripped(StringListOr(raw, LabelKeys).value)
  {
    StringListStripped(raw, PeopleKeys);
    StringListStripped(raw, LabelKeys);
    TextOrStripped(raw, TitleKeys, "");
    TextOrStripped(raw, ContentKeys, "");
    TextOrDefaultStripped(raw, DomainKeys, "tasks");
  }

  /** map_reminders: one record per reminder, in order. */
  function MapReminders(rawExport: seq<Fields>): Result<seq<CanonicalObject>> {
    MapAll(rawExport, MapReminder)
  }

  /** The reminder of the mapper's test: a non-blank "list" string becomes
      the domain, trimmed, and a "dueDate" string is the due instant. */
  lemma ListIsDomain(raw: Fields, list: string)
    requires StringListOr(raw, LabelKeys).Ok? && StringListOr(raw, PeopleKeys).Ok?
    requires Get(raw, "list") == JStr(list) && Strip(list) != []
    ensures MapReminder(raw).Ok? && MapReminder(raw).value.domain == Strip(list)
  {
    MapReminderFields(raw);
    TextOrDefaultFirst(raw, DomainKeys, "tasks", list);
  }

  lemma DueDateIsDue(raw: Fields, due: string)
    requires StringListOr(raw, LabelKeys).Ok? && StringListOr(raw, PeopleKeys).Ok?
    requires Get(raw, "dueDate") == JStr(due) && due != []
    ensures MapReminder(raw).Ok? && MapReminder(raw).value.dueAt == ParseIsoText(due)
  {
    MapReminderFields(raw);
  }
}
