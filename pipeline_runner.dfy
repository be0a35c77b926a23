/** The deterministic normalisation pipeline: export payloads are reduced to
    records, mapped, deduplicated by canonical id, stored, and the relation
    graph is rebuilt over what was stored. */
module PipelineRunner {
  import opened Wrappers
  import opened Collections
  import opened Json
  import opened CanonicalSchema
  import opened RelationBuilder
  import opened ExportLoader
  import NotesMapper
  import CalendarMapper
  import RemindersMapper
  import IngestionCommon

  const NotesKeys := ["notes", "items", "data"]
  const EventsKeys := ["events", "items", "data"]
  const RemindersKeys := ["reminders", "items", "data"]

  /** PipelineRunReport */
  datatype PipelineRunReport = PipelineRunReport(
    notesCount: nat,
    calendarCount: nat,
    remindersCount: nat,
    canonicalCount: nat,
    relationCount: nat,
    dbPath: string)

  /** What one run leaves in the store besides its report. */
  datatype RunOutcome = RunOutcome(
    report: PipelineRunReport,
    upserted: seq<CanonicalObject>,
    relations: seq<Relation>)

  function IdOf(o: CanonicalObject): string {
    o.canonicalId
  }

  /** _dedupe_canonical_objects: `dedup[obj.canonical_id] = obj` for each
      object, then the dict's values. */
  method DedupeCanonicalObjects(objects: seq<CanonicalObject>) returns (r: seq<CanonicalObject>)
    ensures r == LastWins(objects, IdOf)
  {
    var keys: seq<string> := [];
    var dedup: map<string, CanonicalObject> := map[];
    for i := 0 to |objects|
      invariant DictOf(keys, dedup, objects[..i], IdOf)
    {
      var obj := objects[i];
      DictOfSnoc(keys, dedup, objects[..i], IdOf, obj);
      TakeNext(objects, i);
      if obj.canonicalId !in dedup {
        keys := keys + [obj.canonicalId];
      }
      dedup := dedup[obj.canonicalId := obj];
    }
    assert objects[..|objects|] == objects;
    r := Values(keys, dedup, objects, IdOf);
  }

  /** The deduplicated objects: no two share an id, they come in the order
      of each id's first occurrence, each is the last input object with its
      id, and every input id is kept. */
  lemma DedupeProperties(objects: seq<CanonicalObject>)
    ensures var r := LastWins(objects, IdOf);
      |r| <= |objects|
      && (forall i, j :: 0 <= i < j < |r| ==> r[i].canonicalId != r[j].canonicalId)
      && (forall i :: 0 <= i < |r| ==> r[i].canonicalId == KeysInOrder(objects, IdOf)[i])
      && (forall o :: o in r ==> o in objects && o == LastWith(objects, IdOf, o.canonicalId))
      && (forall o :: o in objects ==> exists p :: p in r && p.canonicalId == o.canonicalId)
  {
  }

  /** The last object with each id is the one kept: nothing after it in the
      input has its id. */
  lemma DedupeKeepsLast(objects: seq<CanonicalObject>, o: CanonicalObject)
    requires o in LastWins(objects, IdOf)
    ensures exists i :: 0 <= i < |objects| && objects[i] == o
                        && forall j :: i < j < |objects| ==> objects[j].canonicalId != o.canonicalId
  {
    LastWithIsLast(objects, IdOf, o.canonicalId);
  }

  /** Objects whose ids are already distinct come through unchanged. */
  lemma DedupeDistinct(objects: seq<CanonicalObject>)
    requires forall i, j :: 0 <= i < j < |objects| ==> objects[i].canonicalId != objects[j].canonicalId
    ensures LastWins(objects, IdOf) == objects
  {
    LastWinsOfDistinct(objects, IdOf);
  }

  /** The three mapped lists of a run, or the first error: the payloads are
      all reduced to records before any is mapped. */
  function MapPayloads(notesPayload: Json, calendarPayload: Json, remindersPayload: Json)
    : Result<(seq<CanonicalObject>, seq<CanonicalObject>, seq<CanonicalObject>)>
  {
    var noteRecords := AsRecords(notesPayload, NotesKeys);
    var calendarRecords := AsRecords(calendarPayload, EventsKeys);
    var reminderRecords := AsRecords(remindersPayload, RemindersKeys);
    if noteRecords.Err? then Err(noteRecords.error)
    else if calendarRecords.Err? then Err(calendarRecords.error)
    else if reminderRecords.Err? then Err(reminderRecords.error)
    else
      var notes := NotesMapper.MapNotes(noteRecords.value);
      var events := CalendarMapper.MapEvents(calendarRecords.value);
      var reminders := RemindersMapper.MapReminders(reminderRecords.value);
      if notes.Err? then Err(notes.error)
      else if events.Err? then Err(events.error)
      else if reminders.Err? then Err(reminders.error)
      else Ok((notes.value, events.value, reminders.value))
  }

  /** A run maps one record per dict record of each payload. */
  lemma MapPayloadsLengths(notesPayload: Json, calendarPayload: Json, remindersPayload: Json)
    requires MapPayloads(notesPayload, calendarPayload, remindersPayload).Ok?
    ensures var (notes, events, reminders) := MapPayloads(notesPayload, calendarPayload, remindersPayload).value;
      |notes| == |AsRecords(notesPayload, NotesKeys).value|
      && |events| == |AsRecords(calendarPayload, EventsKeys).value|
      && |reminders| == |AsRecords(remindersPayload, RemindersKeys).value|
  {
    IngestionCommon.MapAllCases(AsRecords(notesPayload, NotesKeys).value, NotesMapper.MapNote);
    IngestionCommon.MapAllCases(AsRecords(calendarPayload, EventsKeys).value, CalendarMapper.MapEvent);
    IngestionCommon.MapAllCases(AsRecords(remindersPayload, RemindersKeys).value, RemindersMapper.MapReminder);
  }

  /** DeterministicNormalizationPipeline.run: the deduplicated objects are
      both the ones upserted and the ones the relations are rebuilt over;
      the report counts the mapped lists, the deduplicated objects and the
      stored relations. */
  method Run(notesPayload: Json, calendarPayload: Json, remindersPayload: Json, dbPath: string)
    returns (r: Result<RunOutcome>)
    ensures r.Err? <==> MapPayloads(notesPayload, calendarPayload, remindersPayload).Err?
    ensures r.Err? ==> r.error == MapPayloads(notesPayload, calendarPayload, remindersPayload).error
    ensures r.Ok? ==>
      var (notes, events, reminders) := MapPayloads(notesPayload, calendarPayload, remindersPayload).value;
      var out := r.value;
      out.upserted == LastWins(notes + events + reminders, IdOf)
      && out.relations == BuildRelationsSpec(out.upserted)
      && out.report == PipelineRunReport(|notes|, |events|, |reminders|,
                                         |out.upserted|, |out.relations|, dbPath)
      && out.report.canonicalCount <= out.report.notesCount + out.report.calendarCount + out.report.remindersCount
  {
    var mapped := MapPayloads(notesPayload, calendarPayload, remindersPayload);
    if mapped.Err? {
      return Err(mapped.error);
    }
    var (notes, events, reminders) := mapped.value;
    var canonicalObjects := DedupeCanonicalObjects(notes + events + reminders);
    var stored, relationCount := RebuildRelations(canonicalObjects);
    r := Ok(RunOutcome(
      PipelineRunReport(|notes|, |events|, |reminders|, |canonicalObjects|, relationCount, dbPath),
      canonicalObjects, stored));
  }
}
