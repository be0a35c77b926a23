/** The older normalisation path: one raw ingestion document (a source name
    and its payload) becomes a list of canonical event records. Unlike the
    export mappers it never infers a value: a field is the first key that is
    present, stringified, and an empty string counts as present. */
module CanonicalEvent {
  import opened Wrappers
  import opened Text
  import opened Collections
  import opened Json

  /** CanonicalEvent. The `extra` dict holds one source-specific key. */
  datatype Event = Event(
    canonicalId: string,
    sourceSystem: string,
    sourceRecordType: string,
    sourceRecordId: Option<string>,
    title: Option<string>,
    content: Option<string>,
    startAt: Option<string>,
    endAt: Option<string>,
    dueAt: Option<string>,
    createdAt: Option<string>,
    updatedAt: Option<string>,
    status: Option<string>,
    location: Option<string>,
    labels: seq<string>,
    participants: seq<string>,
    extra: (string, Option<string>),
    rawRecord: Fields)

  /** The key loop shared by _pick_string and _pick_list_of_strings: the
      first key whose value is not None. */
  function FirstPresent(record: Fields, keys: seq<string>): Option<Json> {
    if keys == [] then None
    else if Get(record, keys[0]).JNull? then FirstPresent(record, keys[1..])
    else Some(Get(record, keys[0]))
  }

  /** The loop finds nothing exactly when every key is missing or None, and
      otherwise stops at the first key that holds something. */
  lemma {:induction false} FirstPresentCases(record: Fields, keys: seq<string>)
    ensures FirstPresent(record, keys).None? <==> forall i :: 0 <= i < |keys| ==> Get(record, keys[i]).JNull?
    ensures FirstPresent(record, keys).Some? ==>
      exists i :: 0 <= i < |keys| && Get(record, keys[i]) == FirstPresent(record, keys).value
                  && !Get(record, keys[i]).JNull?
                  && forall j :: 0 <= j < i ==> Get(record, keys[j]).JNull?
  {
    if keys != [] && Get(record, keys[0]).JNull? {
      var tail := keys[1..];
      FirstPresentCases(record, tail);
      assert forall i :: 1 <= i < |keys| ==> keys[i] == tail[i - 1];
      if FirstPresent(record, tail).Some? {
        var i :| 0 <= i < |tail| && Get(record, tail[i]) == FirstPresent(record, tail).value
                 && !Get(record, tail[i]).JNull?
                 && forall j :: 0 <= j < i ==> Get(record, tail[j]).JNull?;
        assert Get(record, keys[i + 1]) == FirstPresent(record, keys).value;
      }
    }
  }

  /** _pick_string */
  function PickString(record: Fields, keys: seq<string>): Option<string> {
    match FirstPresent(record, keys)
    case None => None
    case Some(v) => Some(Str(v))
  }

  /** An empty string is a value here: it stops the search, where the
      mappers' `or` chains skip it and go on to the next key. */
  lemma PickStringKeepsEmpty(record: Fields, k1: string, k2: string, s: string)
    requires Get(record, k1) == JStr([]) && Get(record, k2) == JStr(s) && s != []
    ensures PickString(record, [k1, k2]) == Some([])
    ensures Str(GetFirst(record, [k1, k2], JStr([]))) == s
  {
    assert [k1, k2][1..] == [k2];
  }

  /** `[str(item) for item in value]` */
  function Strs(items: seq<Json>): (r: seq<string>)
    ensures |r| == |items| && forall k :: 0 <= k < |items| ==> r[k] == Str(items[k])
  {
    seq(|items|, k requires 0 <= k < |items| => Str(items[k]))
  }

  /** _pick_list_of_strings */
  function PickListOfStrings(record: Fields, keys: seq<string>): seq<string> {
    match FirstPresent(record, keys)
    case None => []
    case Some(v) => if v.JArr? then Strs(v.items) else [Str(v)]
  }

  /** A list is stringified item by item, a scalar becomes a singleton, and
      absence gives the empty list. */
  lemma PickListOfStringsCases(record: Fields, keys: seq<string>)
    ensures (forall i :: 0 <= i < |keys| ==> Get(record, keys[i]).JNull?) ==> PickListOfStrings(record, keys) == []
    ensures forall i :: 0 <= i < |keys| && !Get(record, keys[i]).JNull?
                        && (forall j :: 0 <= j < i ==> Get(record, keys[j]).JNull?) ==>
      PickListOfStrings(record, keys)
        == if Get(record, keys[i]).JArr? then Strs(Get(record, keys[i]).items) else [Str(Get(record, keys[i]))]
  {
    FirstPresentCases(record, keys);
    forall i | 0 <= i < |keys| && !Get(record, keys[i]).JNull?
               && (forall j :: 0 <= j < i ==> Get(record, keys[j]).JNull?)
      ensures FirstPresent(record, keys) == Some(Get(record, keys[i]))
    {
      var m :| 0 <= m < |keys| && Get(record, keys[m]) == FirstPresent(record, keys).value
               && !Get(record, keys[m]).JNull?
               && forall j :: 0 <= j < m ==> Get(record, keys[j]).JNull?;
      assert m == i;
    }
  }

  /** _records_from_payload */
  function RecordsFromPayload(payload: Json, listKey: string): seq<Fields> {
    match payload
    case JArr(items) => DictsOf(items)
    case JObj(d) => if Get(d, listKey).JArr? then DictsOf(Get(d, listKey).items) else []
    case _ => []
  }

  /** The dict records of the list, in order; a dict without the list, or
      any other payload, has none. */
  lemma RecordsFromPayloadCases(payload: Json, listKey: string)
    ensures var r := RecordsFromPayload(payload, listKey);
      (payload.JArr? ==> (forall f :: f in r <==> JObj(f) in payload.items)
                         && exists idx :: Embeds(Wrapped(r), payload.items, idx))
      && (payload.JObj? && Get(payload.fields, listKey).JArr? ==>
            (forall f :: f in r <==> JObj(f) in Get(payload.fields, listKey).items)
            && exists idx :: Embeds(Wrapped(r), Get(payload.fields, listKey).items, idx))
      && (!payload.JArr? && !(payload.JObj? && Get(payload.fields, listKey).JArr?) ==> r == [])
  {
    if payload.JArr? {
      DictsOfInOrder(payload.items);
    } else if payload.JObj? && Get(payload.fields, listKey).JArr? {
      DictsOfInOrder(Get(payload.fields, listKey).items);
    }
  }

  /** f"{source}:{source_id or index}" */
  function MakeEventId(source: string, sourceId: Option<string>, index: nat): string {
    source + ":" + (if sourceId.Some? && sourceId.value != [] then sourceId.value else NatToString(index))
  }

  lemma DigitCharCode(d: int)
    requires 0 <= d < 10
    ensures DigitChar(d) as int == '0' as int + d
  {
    if d < 5 {
      assert d == 0 || d == 1 || d == 2 || d == 3 || d == 4;
    } else {
      assert d == 5 || d == 6 || d == 7 || d == 8 || d == 9;
    }
  }

  /** Distinct numbers print differently. */
  lemma {:induction false} NatToStringInjective(n: nat, m: nat)
    requires NatToString(n) == NatToString(m)
    ensures n == m
  {
    if n >= 10 && m >= 10 {
      var a, b := NatToString(n), NatToString(m);
      assert a[..|a| - 1] == NatToString(n / 10) && b[..|b| - 1] == NatToString(m / 10);
      NatToStringInjective(n / 10, m / 10);
      assert DigitChar(n % 10) == a[|a| - 1] == b[|b| - 1] == DigitChar(m % 10);
      DigitCharCode(n % 10);
      DigitCharCode(m % 10);
      assert n == 10 * (n / 10) + n % 10 && m == 10 * (m / 10) + m % 10;
    } else if n < 10 && m < 10 {
      DigitCharCode(n);
      DigitCharCode(m);
    }
  }

  /** Records without a source id get distinct ids from their positions. */
  lemma EventIdsByIndexDiffer(source: string, i: nat, j: nat)
    requires i != j
    ensures MakeEventId(source, None, i) != MakeEventId(source, None, j)
  {
    var p := source + ":";
    if MakeEventId(source, None, i) == MakeEventId(source, None, j) {
      assert NatToString(i) == MakeEventId(source, None, i)[|p|..];
      assert NatToString(j) == MakeEventId(source, None, j)[|p|..];
      NatToStringInjective(i, j);
    }
  }

  /** The index fallback can meet a real source id: a record whose id is
      "3" and the record at position 3 without an id share their id. */
  lemma EventIdsCanCollide(source: string)
    ensures MakeEventId(source, Some("3"), 0) == MakeEventId(source, None, 3)
  {
    assert NatToString(3) == "3";
  }

  const NoteIdKeys := ["id", "note_id", "uuid"]
  const ReminderIdKeys := ["id", "reminder_id", "uuid"]
  const EventIdKeys := ["id", "event_id"]
  const CompletedKeys := ["completed", "isCompleted"]
  const LabelKeys := ["tags", "labels"]

  /** One note record at its position. */
  function NoteEvent(record: Fields, index: nat): Event {
    var sourceId := PickString(record, NoteIdKeys);
    Event(
      MakeEventId("apple_notes", sourceId, index), "apple_notes", "note", sourceId,
      PickString(record, ["title", "name"]),
      PickString(record, ["body", "content", "text"]),
      None, None, None,
      PickString(record, ["created_at", "creationDate"]),
      PickString(record, ["updated_at", "modificationDate"]),
      PickString(record, ["status"]),
      None,
      PickListOfStrings(record, LabelKeys),
      [],
      ("folder", PickString(record, ["folder", "account"])),
      record)
  }

  /** `"completed" if completed in {"true", "True", "1"} else "open"` */
  function DerivedStatus(record: Fields): string {
    var completed := PickString(record, CompletedKeys);
    if completed.Some? && completed.value in ["true", "True", "1"] then "completed" else "open"
  }

  /** `_pick_string(record, ["status"]) or status` */
  function ReminderStatus(record: Fields): string {
    var explicit := PickString(record, ["status"]);
    if explicit.Some? && explicit.value != [] then explicit.value else DerivedStatus(record)
  }

  /** A non-empty explicit status wins; otherwise a reminder is "completed"
      exactly when its completion flag reads as true, and "open" else. */
  lemma ReminderStatusCases(record: Fields)
    ensures var explicit := PickString(record, ["status"]);
      (explicit.Some? && explicit.value != [] ==> ReminderStatus(record) == explicit.value)
      && (!(explicit.Some? && explicit.value != []) ==>
            (ReminderStatus(record) == "completed"
             <==> PickString(record, CompletedKeys).Some?
                  && PickString(record, CompletedKeys).value in ["true", "True", "1"]))
      && (!(explicit.Some? && explicit.value != []) ==>
            ReminderStatus(record) == "completed" || ReminderStatus(record) == "open")
  {
  }

  /** A boolean true flag counts as completed: str(True) is "True". */
  lemma CompletedFlag(record: Fields)
    requires Get(record, "completed") == JBool(true)
    ensures DerivedStatus(record) == "completed"
  {
    assert Str(JBool(true)) == "True";
  }

  /** One reminder record at its position. */
  function ReminderEvent(record: Fields, index: nat): Event {
    var sourceId := PickString(record, ReminderIdKeys);
    Event(
      MakeEventId("apple_reminders", sourceId, index), "apple_reminders", "task", sourceId,
      PickString(record, ["title", "name"]),
      PickString(record, ["notes", "description"]),
      PickString(record, ["startDate"]),
      PickString(record, ["completionDate"]),
      PickString(record, ["dueDate", "due_at"]),
      PickString(record, ["creationDate", "created_at"]),
      PickString(record, ["modificationDate", "updated_at"]),
      Some(ReminderStatus(record)),
      PickString(record, ["location"]),
      PickListOfStrings(record, LabelKeys),
      [],
      ("list", PickString(record, ["list", "calendar"])),
      record)
  }

  /** What one attendee contributes: a dict its e-mail or display name, any
      other value its str(), and None nothing. */
  function ParticipantOf(attendee: Json): Option<string> {
    match attendee
    case JObj(fields) => PickString(fields, ["email", "displayName"])
    case JNull => None
    case _ => Some(Str(attendee))
  }

  /** The participants of a list of attendees, in order. */
  function ParticipantsOf(attendees: seq<Json>): seq<string> {
    if attendees == [] then []
    else
      var init := ParticipantsOf(attendees[..|attendees| - 1]);
      match ParticipantOf(attendees[|attendees| - 1])
      case Some(p) => init + [p]
      case None => init
  }

  /** Attendees that are not a list contribute nothing. */
  function Participants(attendees: Json): seq<string> {
    if attendees.JArr? then ParticipantsOf(attendees.items) else []
  }

  lemma ParticipantsOfSnoc(attendees: seq<Json>, a: Json)
    ensures ParticipantsOf(attendees + [a])
         == ParticipantsOf(attendees) + (if ParticipantOf(a).Some? then [ParticipantOf(a).value] else [])
  {
    assert (attendees + [a])[..|attendees|] == attendees;
  }

  /** The attendee loop of _normalize_google_calendar. */
  method CollectParticipants(attendees: Json) returns (participants: seq<string>)
    ensures participants == Participants(attendees)
  {
    participants := [];
    if attendees.JArr? {
      var items := attendees.items;
      for i := 0 to |items|
        invariant participants == ParticipantsOf(items[..i])
      {
        var attendee := items[i];
        ParticipantsOfSnoc(items[..i], attendee);
        assert items[..i + 1] == items[..i] + [attendee];
        if attendee.JObj? {
          var participant := PickString(attendee.fields, ["email", "displayName"]);
          if participant.Some? {
            participants := participants + [participant.value];
          }
        } else if !attendee.JNull? {
          participants := participants + [Str(attendee)];
        }
      }
      assert items[..|items|] == items;
    }
  }

  /** At most one participant per attendee, and a name is listed exactly
      when some attendee contributes it. */
  lemma {:induction false} ParticipantsOfMembers(attendees: seq<Json>)
    ensures |ParticipantsOf(attendees)| <= |attendees|
    ensures forall x :: x in ParticipantsOf(attendees) <==> exists a :: a in attendees && ParticipantOf(a) == Some(x)
  {
    if attendees != [] {
      var n := |attendees| - 1;
      var init := attendees[..n];
      ParticipantsOfMembers(init);
      assert attendees == init + [attendees[n]];
      InFrontOrLast(attendees);
    }
  }

  /** One calendar record at its position, with its participants. */
  function CalendarEvent(record: Fields, index: nat, participants: seq<string>): Event {
    var sourceId := PickString(record, EventIdKeys);
    Event(
      MakeEventId("google_calendar", sourceId, index), "google_calendar", "event", sourceId,
      PickString(record, ["summary", "title"]),
      PickString(record, ["description"]),
      PickString(record, ["start", "start_at"]),
      PickString(record, ["end", "end_at"]),
      None,
      PickString(record, ["created"]),
      PickString(record, ["updated"]),
      PickString(record, ["status"]),
      PickString(record, ["location"]),
      PickListOfStrings(record, LabelKeys),
      participants,
      ("calendar_id", PickString(record, ["calendar_id"])),
      record)
  }

  function EventOf(source: string, record: Fields, index: nat): Event {
    if source == "apple_notes" then NoteEvent(record, index)
    else if source == "apple_reminders" then ReminderEvent(record, index)
    else CalendarEvent(record, index, Participants(Get(record, "attendees")))
  }

  function ListKey(source: string): string {
    if source == "apple_notes" then "notes"
    else if source == "apple_reminders" then "reminders"
    else "events"
  }

  /** The records one of the three normalisers emits: one per dict record,
      each at its position. */
  function Normalized(source: string, payload: Json): seq<Event> {
    var records := RecordsFromPayload(payload, ListKey(source));
    seq(|records|, k requires 0 <= k < |records| => EventOf(source, records[k], k))
  }

  /** _normalize_apple_notes */
  method NormalizeAppleNotes(payload: Json) returns (normalized: seq<Event>)
    ensures normalized == Normalized("apple_notes", payload)
  {
    var records := RecordsFromPayload(payload, "notes");
    normalized := [];
    for index := 0 to |records|
      invariant |normalized| == index
      invariant forall k :: 0 <= k < index ==> normalized[k] == NoteEvent(records[k], k)
    {
      normalized := normalized + [NoteEvent(records[index], index)];
    }
  }

  /** _normalize_apple_reminders */
  method NormalizeAppleReminders(payload: Json) returns (normalized: seq<Event>)
    ensures normalized == Normalized("apple_reminders", payload)
  {
    var records := RecordsFromPayload(payload, "reminders");
    normalized := [];
    for index := 0 to |records|
      invariant |normalized| == index
      invariant forall k :: 0 <= k < index ==> normalized[k] == ReminderEvent(records[k], k)
    {
      normalized := normalized + [ReminderEvent(records[index], index)];
    }
  }

  /** _normalize_google_calendar */
  method NormalizeGoogleCalendar(payload: Json) returns (normalized: seq<Event>)
    ensures normalized == Normalized("google_calendar", payload)
  {
    var records := RecordsFromPayload(payload, "events");
    normalized := [];
    for index := 0 to |records|
      invariant |normalized| == index
      invariant forall k :: 0 <= k < index ==>
        normalized[k] == CalendarEvent(records[k], k, Participants(Get(records[k], "attendees")))
    {
      var record := records[index];
      var participants := CollectParticipants(Get(record, "attendees"));
      normalized := normalized + [CalendarEvent(record, index, participants)];
    }
  }

  predicate KnownSource(source: Json) {
    source == JStr("apple_notes") || source == JStr("apple_reminders") || source == JStr("google_calendar")
  }

  function UnsupportedSource(source: Json): string {
    "ValueError: Unsupported source: " + Str(source)
  }

  /** normalize_raw_document: dispatch on the document's source. */
  method NormalizeRawDocument(rawDocument: Fields) returns (r: Result<seq<Event>>)
    ensures r.Err? <==> !KnownSource(Get(rawDocument, "source"))
    ensures r.Err? ==> r.error == UnsupportedSource(Get(rawDocument, "source"))
    ensures r.Ok? ==> r.value == Normalized(Get(rawDocument, "source").s, Get(rawDocument, "payload"))
  {
    var source := Get(rawDocument, "source");
    var payload := Get(rawDocument, "payload");
    var records;
    if source == JStr("apple_notes") {
      records := NormalizeAppleNotes(payload);
    } else if source == JStr("apple_reminders") {
      records := NormalizeAppleReminders(payload);
    } else if source == JStr("google_calendar") {
      records := NormalizeGoogleCalendar(payload);
    } else {
      return Err(UnsupportedSource(source));
    }
    r := Ok(records);
  }

  /** Each emitted record carries the document's source, an id under that
      source's prefix, and the dict record it came from, in payload order. */
  lemma NormalizedShape(source: string, payload: Json)
    requires source == "apple_notes" || source == "apple_reminders" || source == "google_calendar"
    ensures var records := RecordsFromPayload(payload, ListKey(source));
      var out := Normalized(source, payload);
      |out| == |records|
      && forall k :: 0 <= k < |out| ==>
           out[k].sourceSystem == source && out[k].rawRecord == records[k]
           && StartsWith(out[k].canonicalId, source + ":")
  {
    var records := RecordsFromPayload(payload, ListKey(source));
    var out := Normalized(source, payload);
    forall k | 0 <= k < |out|
      ensures out[k].sourceSystem == source && out[k].rawRecord == records[k]
              && StartsWith(out[k].canonicalId, source + ":")
    {
      var e := out[k];
      assert e == EventOf(source, records[k], k);
      assert e.canonicalId[..|source + ":"|] == source + ":";
    }
  }
}
