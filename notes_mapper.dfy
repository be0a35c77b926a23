/** Apple Notes export records mapped to canonical records. */
module NotesMapper {
  import opened Wrappers
  import opened Text
  import opened Json
  import opened DeterministicId
  import opened CanonicalSchema
  import opened IngestionCommon

  const SourceSystem := "apple_notes"
  const SourceRecordType := "note"

  const IdKeys := ["id", "note_id", "identifier", "uuid", "title", "created"]
  const TitleKeys := ["title", "name"]
  const ContentKeys := ["content", "body"]
  const LabelKeys := ["tags", "labels"]
  const PeopleKeys := ["participants", "people"]
  const DomainKeys := ["folder", "domain"]

  /** _source_note_id: the first truthy id-like field, as text. */
  function SourceNoteId(raw: Fields): string {
    Str(GetFirst(raw, IdKeys, JStr("unknown_note")))
  }

  /** Without any id-like field the id is "unknown_note"; otherwise the
      first truthy one wins. */
  lemma SourceNoteIdCases(raw: Fields)
    ensures (forall i :: 0 <= i < |IdKeys| ==> !Truthy(Get(raw, IdKeys[i]))) ==> SourceNoteId(raw) == "unknown_note"
    ensures forall i :: 0 <= i < |IdKeys| && Truthy(Get(raw, IdKeys[i]))
                        && (forall j :: 0 <= j < i ==> !Truthy(Get(raw, IdKeys[j])))
                        ==> SourceNoteId(raw) == Str(Get(raw, IdKeys[i]))
  {
  }

  /** map_note: fails only where iterating the tags or the people raises. */
  function MapNote(raw: Fields): (r: Result<CanonicalObject>)
    ensures r.Ok? ==> Valid(r.value)
    ensures r.Ok? ==> StringListOr(raw, LabelKeys).Ok? && StringListOr(raw, PeopleKeys).Ok?
  {
    var labels := StringListOr(raw, LabelKeys);
    var people := StringListOr(raw, PeopleKeys);
    if labels.Err? then Err(labels.error)
    else if people.Err? then Err(people.error)
    else Create(
      MakeCanonicalId(SourceSystem, SourceRecordType, SourceNoteId(raw)),
      SourceSystem, SourceRecordType,
      TextOr(raw, TitleKeys, ""), TextOr(raw, ContentKeys, ""),
      None, None, None,
      ParseDateTime(Or(Get(raw, "created_at"), Get(raw, "created"))),
      ParseDateTime(Or(Get(raw, "updated_at"), Get(raw, "updated"))),
      people.value, labels.value,
      TextOrDefault(raw, DomainKeys, "notes"))
  }

  /** A note maps exactly when its tags and people can be iterated; a
      failure of the tags is the one reported. */
  lemma MapNoteFails(raw: Fields)
    ensures MapNote(raw).Err? <==> StringListOr(raw, LabelKeys).Err? || StringListOr(raw, PeopleKeys).Err?
    ensures StringListOr(raw, LabelKeys).Err? ==> MapNote(raw) == Err(StringListOr(raw, LabelKeys).error)
  {
    if StringListOr(raw, LabelKeys).Ok? && StringListOr(raw, PeopleKeys).Ok? {
      MapNoteFields(raw);
    }
  }

  /** The record a note maps to: its id derived from the source id, the
      note source and type, trimmed title and content, only the created and
      updated instants, the normalised people and labels, and a domain that
      falls back to "notes". */
  lemma MapNoteFields(raw: Fields)
    requires StringListOr(raw, LabelKeys).Ok? && StringListOr(raw, PeopleKeys).Ok?
    ensures MapNote(raw).Ok?
    ensures var o := MapNote(raw).value;
      o.canonicalId == MakeCanonicalId(SourceSystem, SourceRecordType, SourceNoteId(raw))
      && o.sourceSystem == "apple_notes" && o.sourceRecordType == "note"
      && o.title == TextOr(raw, TitleKeys, "") && o.content == TextOr(raw, ContentKeys, "")
      && o.startAt == None && o.endAt == None && o.dueAt == None
      && o.createdAt == ParseDateTime(Or(Get(raw, "created_at"), Get(raw, "created")))
      && o.updatedAt == ParseDateTime(Or(Get(raw, "updated_at"), Get(raw, "updated")))
      && o.people == StringListOr(raw, PeopleKeys).value
      && o.labels == StringListOr(raw, LabelKeys).value
      && o.domain == TextOrDefault(raw, DomainKeys, "notes") && o.domain != []
      && Valid(o)
  {
    var id := MakeCanonicalId(SourceSystem, SourceRecordType, SourceNoteId(raw));
    CanonicalIdStripped(SourceSystem, SourceRecordType, SourceNoteId(raw));
    CreateOfMapped(raw, id);
  }

  lemma SourceNamesStripped()
    ensures SourceSystem != [] && IsStripped(SourceSystem)
    ensures SourceRecordType != [] && IsStripped(SourceRecordType)
  {
    assert SourceSystem[0] == 'a' && SourceSystem[|SourceSystem| - 1] == 's';
    assert SourceRecordType[0] == 'n' && SourceRecordType[|SourceRecordType| - 1] == 'e';
  }

  /** With a trimmed, non-blank id the schema accepts the mapped fields as
      they are. */
  lemma CreateOfMapped(raw: Fields, id: string)
    requires StringListOr(raw, LabelKeys).Ok? && StringListOr(raw, PeopleKeys).Ok?
    requires id != [] && IsStripped(id)
    ensures Create(id, SourceSystem, SourceRecordType,
                   TextOr(raw, TitleKeys, ""), TextOr(raw, ContentKeys, ""),
                   None, None, None,
                   ParseDateTime(Or(Get(raw, "created_at"), Get(raw, "created"))),
                   ParseDateTime(Or(Get(raw, "updated_at"), Get(raw, "updated"))),
                   StringListOr(raw, PeopleKeys).value, StringListOr(raw, LabelKeys).value,
                   TextOrDefault(raw, DomainKeys, "notes"))
         == Ok(CanonicalObject(id, SourceSystem, SourceRecordType,
                   TextOr(raw, TitleKeys, ""), TextOr(raw, ContentKeys, ""),
                   None, None, None,
                   ParseDateTime(Or(Get(raw, "created_at"), Get(raw, "created"))),
                   ParseDateTime(Or(Get(raw, "updated_at"), Get(raw, "updated"))),
                   StringListOr(raw, PeopleKeys).value, StringListOr(raw, LabelKeys).value,
                   TextOrDefault(raw, DomainKeys, "notes")))
  {
    MappedFieldsStripped(raw);
    SourceNamesStripped();
    CreateOfStripped(id, SourceSystem, SourceRecordType,
                     TextOr(raw, TitleKeys, ""), TextOr(raw, ContentKeys, ""),
                     None, None, None,
                     ParseDateTime(Or(Get(raw, "created_at"), Get(raw, "created"))),
                     ParseDateTime(Or(Get(raw, "updated_at"), Get(raw, "updated"))),
                     StringListOr(raw, PeopleKeys).value, StringListOr(raw, LabelKeys).value,
                     TextOrDefault(raw, DomainKeys, "notes"));
  }

  /** Every string the mapper hands to the schema is already trimmed, so
      the schema's stripping changes none of them. */
  lemma MappedFieldsStripped(raw: Fields)
    requires StringListOr(raw, LabelKeys).Ok? && StringListOr(raw, PeopleKeys).Ok?
    ensures IsStripped(TextOr(raw, TitleKeys, "")) && IsStripped(TextOr(raw, ContentKeys, ""))
    ensures IsStripped(TextOrDefault(raw, DomainKeys, "notes"))
    ensures AllStripped(StringListOr(raw, PeopleKeys).value) && AllStripped(StringListOr(raw, LabelKeys).value)
  {
    StringListStripped(raw, PeopleKeys);
    StringListStripped(raw, LabelKeys);
    TextOrStripped(raw, TitleKeys, "");
    TextOrStripped(raw, ContentKeys, "");
    TextOrDefaultStripped(raw, DomainKeys, "notes");
  }

  /** map_notes: one record per note, in order. */
  function MapNotes(rawExport: seq<Fields>): Result<seq<CanonicalObject>> {
    MapAll(rawExport, MapNote)
  }

  /** The note of the mapper's test: a non-blank "folder" string becomes the
      domain, trimmed. */
  lemma FolderIsDomain(raw: Fields, folder: string)
    requires StringListOr(raw, LabelKeys).Ok? && StringListOr(raw, PeopleKeys).Ok?
    requires Get(raw, "folder") == JStr(folder) && Strip(folder) != []
    ensures MapNote(raw).Ok? && MapNote(raw).value.domain == Strip(folder)
  {
    MapNoteFields(raw);
    TextOrDefaultFirst(raw, DomainKeys, "notes", folder);
  }
}
