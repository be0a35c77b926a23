/** The deterministic behaviour-state engine: the records anchored within
    the recent window are counted (overdue reminders, items starting or due
    in the next 24 hours, distinct domains), the FOLLOW_UP edges touching
    them are counted, and four clamped linear scores are derived from the
    counts. Times are UTC epoch seconds; `now` is a parameter. */
module StateEngine {
  import opened Wrappers
  import opened Text
  import opened Collections
  import opened Json
  import opened Timestamps
  import opened CanonicalSchema
  import opened RelationBuilder
  import opened Tally

  datatype Config = Config(recentWindowDays: int, followUpWindowDays: int)

  const DefaultConfig: Config := Config(7, 7)

  datatype Features = Features(
    recentObjectCount: nat,
    upcoming24hCount: nat,
    overdueReminderCount: nat,
    followUpRelationCount: nat,
    activeDomainCount: nat)

  /** The snapshot; the diagnostics dict is held as its two entries. */
  datatype Snapshot = Snapshot(
    energyLevel: real,
    stressProbability: real,
    focusIndex: real,
    executionVelocity: real,
    domainContext: string,
    computedAt: int,
    features: Features,
    contextSwitchRatio: real,
    followUpDensity: real)

  /** max(lo, min(hi, value)) */
  function Clamp(value: real, lo: real, hi: real): (r: real)
    ensures lo <= hi ==> lo <= r <= hi
    ensures lo <= value <= hi ==> r == value
    ensures value < lo ==> r == lo
    ensures lo <= hi < value ==> r == hi
  {
    var m := if hi <= value then hi else value;
    if lo >= m then lo else m
  }

  /** The engine's anchor: the first present of start, due, updated,
      created and end (updated before created, unlike the relation rules). */
  function StateAnchor(o: CanonicalObject): (r: Option<int>)
    ensures r.None? <==> o.startAt.None? && o.dueAt.None? && o.updatedAt.None? && o.createdAt.None? && o.endAt.None?
    ensures o.startAt.Some? ==> r == o.startAt
    ensures o.startAt.None? && o.dueAt.Some? ==> r == o.dueAt
    ensures o.startAt.None? && o.dueAt.None? && o.updatedAt.Some? ==> r == o.updatedAt
    ensures o.startAt.None? && o.dueAt.None? && o.updatedAt.None? && o.createdAt.Some? ==> r == o.createdAt
    ensures o.startAt.None? && o.dueAt.None? && o.updatedAt.None? && o.createdAt.None? ==> r == o.endAt
  {
    if o.startAt.Some? then o.startAt
    else if o.dueAt.Some? then o.dueAt
    else if o.updatedAt.Some? then o.updatedAt
    else if o.createdAt.Some? then o.createdAt
    else o.endAt
  }

  /** A record is recent when its anchor is at or after the floor; later
      (future) anchors count too. */
  predicate IsRecent(o: CanonicalObject, floor: int) {
    StateAnchor(o).Some? && StateAnchor(o).value >= floor
  }

  predicate IsOverdueReminder(o: CanonicalObject, now: int) {
    o.sourceRecordType == "reminder" && o.dueAt.Some? && o.dueAt.value < now
  }

  /** The start, else the due time. */
  function UpcomingAnchor(o: CanonicalObject): Option<int> {
    if o.startAt.Some? then o.startAt else o.dueAt
  }

  predicate IsUpcoming(o: CanonicalObject, now: int) {
    UpcomingAnchor(o).Some? && now <= UpcomingAnchor(o).value <= now + 24 * SecondsPerHour
  }

  /** [obj for obj in objects if _is_recent(obj, floor)] */
  function RecentObjects(objects: seq<CanonicalObject>, floor: int): (r: seq<CanonicalObject>)
    ensures |r| <= |objects|
    ensures forall o :: o in r <==> o in objects && IsRecent(o, floor)
  {
    if objects == [] then []
    else
      var last := objects[|objects| - 1];
      RecentObjects(objects[..|objects| - 1], floor) + (if IsRecent(last, floor) then [last] else [])
  }

  function Ids(objects: seq<CanonicalObject>): set<string> {
    set o | o in objects :: o.canonicalId
  }

  function CountOverdue(objects: seq<CanonicalObject>, now: int): (n: nat)
    ensures n <= |objects|
  {
    if objects == [] then 0
    else CountOverdue(objects[..|objects| - 1], now) + (if IsOverdueReminder(objects[|objects| - 1], now) then 1 else 0)
  }

  function CountUpcoming(objects: seq<CanonicalObject>, now: int): (n: nat)
    ensures n <= |objects|
  {
    if objects == [] then 0
    else CountUpcoming(objects[..|objects| - 1], now) + (if IsUpcoming(objects[|objects| - 1], now) then 1 else 0)
  }

  /** The positions of the records that meet a test. */
  function PositionsWhere(objects: seq<CanonicalObject>, test: CanonicalObject -> bool): set<int> {
    set i | 0 <= i < |objects| && test(objects[i])
  }

  /** The positions in a list with one more record are those of the shorter
      list, plus the new last position when that record meets the test. */
  lemma PositionsSnoc(objects: seq<CanonicalObject>, test: CanonicalObject -> bool)
    requires objects != []
    ensures var last := |objects| - 1;
      PositionsWhere(objects, test)
      == PositionsWhere(objects[..last], test) + (if test(objects[last]) then {last} else {})
    ensures |objects| - 1 !in PositionsWhere(objects[..|objects| - 1], test)
  {
  }

  /** The overdue count is the number of positions holding an overdue,
      uncompleted reminder. */
  lemma {:induction false} CountOverdueCounts(objects: seq<CanonicalObject>, now: int)
    ensures CountOverdue(objects, now) == |PositionsWhere(objects, o => IsOverdueReminder(o, now))|
  {
    var test := o => IsOverdueReminder(o, now);
    if objects != [] {
      CountOverdueCounts(objects[..|objects| - 1], now);
      PositionsSnoc(objects, test);
    }
  }

  /** The upcoming count is the number of positions holding a record due or
      starting within the upcoming window. */
  lemma {:induction false} CountUpcomingCounts(objects: seq<CanonicalObject>, now: int)
    ensures CountUpcoming(objects, now) == |PositionsWhere(objects, o => IsUpcoming(o, now))|
  {
    var test := o => IsUpcoming(o, now);
    if objects != [] {
      CountUpcomingCounts(objects[..|objects| - 1], now);
      PositionsSnoc(objects, test);
    }
  }

  predicate HasDomain(o: CanonicalObject) {
    Strip(o.domain) != []
  }

  /** {o.domain.strip().lower() for o in objects if o.domain.strip()} */
  function ActiveDomains(objects: seq<CanonicalObject>): (r: set<string>)
    ensures |r| <= |objects|
    ensures forall d :: d in r <==> exists i :: 0 <= i < |objects| && HasDomain(objects[i]) && DomainValue(objects[i]) == d
  {
    ImageWhere(objects, DomainValue, HasDomain)
  }

  /** obj.domain.strip().lower() or "general" */
  function DomainKey(o: CanonicalObject): (r: string)
    ensures r != []
  {
    if DomainValue(o) == [] then "general" else DomainValue(o)
  }

  /** _resolve_domain_context: "general" without records, otherwise the
      domain key that occurs most often, the smallest name among equals. */
  function DomainContext(objects: seq<CanonicalObject>): (r: string) {
    if objects == [] then "general" else MostFrequent(objects, DomainKey)
  }

  /** The domain context is carried by some record, and it beats every other
      domain key: it occurs more often, or as often and sorts first. */
  lemma DomainContextIsMostFrequent(objects: seq<CanonicalObject>)
    ensures objects == [] ==> DomainContext(objects) == "general"
    ensures objects != [] ==> exists o :: o in objects && DomainKey(o) == DomainContext(objects)
    ensures forall o :: o in objects && DomainKey(o) != DomainContext(objects) ==>
      Beats(objects, DomainKey, DomainContext(objects), DomainKey(o))
  {
    if objects != [] {
      MostFrequentIsFirst(objects, DomainKey);
    }
  }

  /** _resolve_domain_context as written: count each key in a dict, then
      take the first item sorted by (-count, name). */
  method ResolveDomainContext(objects: seq<CanonicalObject>) returns (r: string)
    ensures r == DomainContext(objects)
  {
    if |objects| == 0 {
      return "general";
    }
    r := CountAndPick(objects, DomainKey);
  }

  /** _relation_time_hint: created_at read as an instant when it is a
      non-blank string that parses; None otherwise. */
  function RelationTimeHint(rel: Fields): (r: Option<int>)
    ensures !Get(rel, "created_at").JStr? ==> r.None?
    ensures Get(rel, "created_at").JStr? && Strip(Get(rel, "created_at").s) == [] ==> r.None?
  {
    match Get(rel, "created_at")
    case JStr(text) => ParseIsoText(text)
    case _ => None
  }

  /** The relation loop's test: a FOLLOW_UP edge with an endpoint among the
      recent ids, not known to be older than the floor. */
  predicate CountsAsFollowUp(rel: Fields, recentIds: set<string>, floor: int) {
    TextField(rel, "relation_type") == FollowUp.Name()
    && (TextField(rel, "from_canonical_id") in recentIds || TextField(rel, "to_canonical_id") in recentIds)
    && (RelationTimeHint(rel).None? || RelationTimeHint(rel).value >= floor)
  }

  /** How many of relations[..n] pass the test. */
  function FollowUpCount(relations: seq<Fields>, n: int, recentIds: set<string>, floor: int): (c: nat)
    requires 0 <= n <= |relations|
    ensures c <= n
  {
    if n == 0 then 0
    else FollowUpCount(relations, n - 1, recentIds, floor) + (if CountsAsFollowUp(relations[n - 1], recentIds, floor) then 1 else 0)
  }

  /** The body of calculate's relation loop, whose three `continue`s
      become early returns of false. */
  method IsCountedFollowUp(relation: Fields, recentIds: set<string>, floor: int) returns (counted: bool)
    ensures counted == CountsAsFollowUp(relation, recentIds, floor)
  {
    var relationType := TextField(relation, "relation_type");
    if relationType != FollowUp.Name() {
      return false;
    }
    var fromId := TextField(relation, "from_canonical_id");
    var toId := TextField(relation, "to_canonical_id");
    if fromId !in recentIds && toId !in recentIds {
      return false;
    }
    var relationTime := RelationTimeHint(relation);
    if relationTime.Some? && relationTime.value < floor {
      return false;
    }
    return true;
  }

  /** The relation loop of calculate. */
  method CountFollowUpRelations(relations: seq<Fields>, recentIds: set<string>, floor: int) returns (count: nat)
    ensures count == FollowUpCount(relations, |relations|, recentIds, floor)
  {
    count := 0;
    for i := 0 to |relations|
      invariant count == FollowUpCount(relations, i, recentIds, floor)
    {
      var counted := IsCountedFollowUp(relations[i], recentIds, floor);
      if counted {
        count := count + 1;
      }
    }
  }

  /** count / recent_count, or 0.0 without recent records. */
  function Ratio(count: nat, total: nat): real {
    if total == 0 then 0.0 else count as real / total as real
  }

  /** A ratio is zero without records, otherwise count / total: it times
      the total is the count, and it lies in [0, 1] when count <= total. */
  lemma RatioOfCount(count: nat, total: nat)
    ensures total == 0 ==> Ratio(count, total) == 0.0
    ensures total > 0 ==> Ratio(count, total) * total as real == count as real
    ensures Ratio(count, total) >= 0.0
    ensures count <= total ==> Ratio(count, total) <= 1.0
  {
  }

  function Energy(f: Features, contextSwitchRatio: real, followUpDensity: real): real {
    Clamp(55.0 + 3.5 * f.recentObjectCount as real - 8.0 * f.overdueReminderCount as real
          - 2.0 * f.upcoming24hCount as real - 10.0 * contextSwitchRatio + 6.0 * followUpDensity, 0.0, 100.0)
  }

  function Focus(f: Features, contextSwitchRatio: real, followUpDensity: real): real {
    Clamp(72.0 - 25.0 * contextSwitchRatio + 8.0 * followUpDensity - 1.0 * f.upcoming24hCount as real, 0.0, 100.0)
  }

  function Velocity(f: Features, followUpDensity: real): real {
    Clamp(20.0 + 6.0 * f.recentObjectCount as real + 8.0 * followUpDensity - 2.0 * f.overdueReminderCount as real, 0.0, 100.0)
  }

  /** The stress score before clamping, without the low-energy term. */
  function StressBase(f: Features, contextSwitchRatio: real, followUpDensity: real): real {
    0.15 + 0.12 * f.overdueReminderCount as real + 0.04 * f.upcoming24hCount as real
    + 0.25 * contextSwitchRatio - 0.20 * followUpDensity
  }

  function Stress(f: Features, contextSwitchRatio: real, followUpDensity: real, energy: real): real {
    Clamp(StressBase(f, contextSwitchRatio, followUpDensity) + (if energy < 35.0 then 0.35 else 0.0), 0.0, 1.0)
  }

  /** now - days * 86400: the start of a window of whole days ending now. */
  function WindowFloor(now: int, days: int): (r: int)
    ensures days >= 0 ==> r <= now
  {
    now - days * 86400
  }

  /** The records inside the recent window. */
  function Recent(objects: seq<CanonicalObject>, now: int, config: Config): seq<CanonicalObject> {
    RecentObjects(objects, WindowFloor(now, config.recentWindowDays))
  }

  /** The features calculate derives from the recent records and the relations. */
  function FeaturesOf(recent: seq<CanonicalObject>, relations: seq<Fields>, now: int, config: Config): Features {
    Features(
      |recent|,
      CountUpcoming(recent, now),
      CountOverdue(recent, now),
      FollowUpCount(relations, |relations|, Ids(recent), WindowFloor(now, config.followUpWindowDays)),
      |ActiveDomains(recent)|)
  }

  /** The snapshot built from the features, the domain context and the time. */
  function SnapshotOf(f: Features, domainContext: string, now: int): Snapshot {
    var csr := Ratio(f.activeDomainCount, f.recentObjectCount);
    var fud := Ratio(f.followUpRelationCount, f.recentObjectCount);
    var energy := Energy(f, csr, fud);
    Snapshot(energy, Stress(f, csr, fud, energy), Focus(f, csr, fud), Velocity(f, fud),
             domainContext, now, f, csr, fud)
  }

  /** DeterministicStateEngine.calculate as a function of its inputs. */
  function Calc(objects: seq<CanonicalObject>, relations: seq<Fields>, now: int, config: Config): Snapshot {
    var recent := Recent(objects, now, config);
    SnapshotOf(FeaturesOf(recent, relations, now, config), DomainContext(recent), now)
  }

  /** calculate as written: the filters and counts, the domain loop, the
      relation loop and the four scores. */
  method Calculate(objects: seq<CanonicalObject>, relations: seq<Fields>, now: int, config: Config)
    returns (s: Snapshot)
    ensures s == Calc(objects, relations, now, config)
  {
    var recent := Recent(objects, now, config);
    var recentIds := Ids(recent);
    var overdue := CountOverdue(recent, now);
    var upcoming := CountUpcoming(recent, now);
    var active := |ActiveDomains(recent)|;
    var domainContext := ResolveDomainContext(recent);
    var followUps := CountFollowUpRelations(relations, recentIds, WindowFloor(now, config.followUpWindowDays));
    var f := Features(|recent|, upcoming, overdue, followUps, active);
    s := SnapshotOf(f, domainContext, now);
  }

  /** The three scores lie in [0, 100] and the stress probability in [0, 1]. */
  lemma ScoresInRange(objects: seq<CanonicalObject>, relations: seq<Fields>, now: int, config: Config)
    ensures var s := Calc(objects, relations, now, config);
      0.0 <= s.energyLevel <= 100.0 && 0.0 <= s.focusIndex <= 100.0
      && 0.0 <= s.executionVelocity <= 100.0 && 0.0 <= s.stressProbability <= 1.0
  {
  }

  /** Every counter is bounded by the number of recent records (the
      follow-up counter by the number of relations), and so the context
      switch ratio lies in [0, 1]. */
  lemma CountersBounded(objects: seq<CanonicalObject>, relations: seq<Fields>, now: int, config: Config)
    ensures var s := Calc(objects, relations, now, config); var f := s.features;
      f.recentObjectCount <= |objects|
      && f.overdueReminderCount <= f.recentObjectCount && f.upcoming24hCount <= f.recentObjectCount
      && f.activeDomainCount <= f.recentObjectCount && f.followUpRelationCount <= |relations|
      && 0.0 <= s.contextSwitchRatio <= 1.0 && s.followUpDensity >= 0.0
  {
    var s := Calc(objects, relations, now, config);
    var f := s.features;
    RatioOfCount(f.activeDomainCount, f.recentObjectCount);
    RatioOfCount(f.followUpRelationCount, f.recentObjectCount);
  }

  /** Without recent records both ratios are zero and the domain context is
      "general"; otherwise each ratio is its count over the recent count. */
  lemma RatiosOfCounts(objects: seq<CanonicalObject>, relations: seq<Fields>, now: int, config: Config)
    ensures var s := Calc(objects, relations, now, config); var f := s.features;
      (f.recentObjectCount == 0 ==> s.contextSwitchRatio == 0.0 && s.followUpDensity == 0.0 && s.domainContext == "general")
      && (f.recentObjectCount > 0 ==>
            s.contextSwitchRatio == f.activeDomainCount as real / f.recentObjectCount as real
            && s.followUpDensity == f.followUpRelationCount as real / f.recentObjectCount as real)
  {
    var recent := Recent(objects, now, config);
    if |recent| == 0 {
      assert recent == [];
    }
  }

  /** The low-energy bonus: stress gets +0.35 exactly when the clamped
      energy is below 35. */
  lemma StressBonus(objects: seq<CanonicalObject>, relations: seq<Fields>, now: int, config: Config)
    ensures var s := Calc(objects, relations, now, config);
      var base := StressBase(s.features, s.contextSwitchRatio, s.followUpDensity);
      (s.energyLevel < 35.0 ==> s.stressProbability == Clamp(base + 0.35, 0.0, 1.0))
      && (s.energyLevel >= 35.0 ==> s.stressProbability == Clamp(base, 0.0, 1.0))
  {
  }

  /** The three records of the engine's example: a note created the day
      before, an event starting two hours after `now`, an overdue reminder,
      all in the "work" domain. */
  function ExampleObjects(): seq<CanonicalObject> {
    [CanonicalObject("co_1", "apple_notes", "note", "Roadmap draft", "Prepare milestones",
                     None, None, None, Some(1772096400), None, ["sam@example.com"], [], "work"),
     CanonicalObject("co_2", "google_calendar", "event", "Roadmap sync", "Discuss dependencies",
                     Some(1772222400), None, None, None, None, ["sam@example.com"], [], "work"),
     CanonicalObject("co_3", "apple_reminders", "reminder", "Send recap", "Email summary",
                     None, None, Some(1772193600), None, None, ["sam@example.com"], [], "work")]
  }

  /** A FOLLOW_UP edge from co_1 to co_2 created at the given text. */
  function ExampleRelation(createdAt: string): Fields {
    [("relation_id", JStr("r1")), ("from_canonical_id", JStr("co_1")), ("to_canonical_id", JStr("co_2")),
     ("relation_type", JStr("FOLLOW_UP")), ("reason", JStr("delta_hours=11.00")),
     ("confidence", JFloat(1.0)), ("created_at", JStr(createdAt))]
  }

  lemma ExampleDomain()
    ensures forall i :: 0 <= i < |ExampleObjects()| ==> DomainValue(ExampleObjects()[i]) == "work"
  {
    StripOfStripped("work");
    LowerOfLower("work");
  }

  /** When every record is recent the filter keeps them all. */
  lemma {:induction false} AllRecent(objects: seq<CanonicalObject>, floor: int)
    requires forall i :: 0 <= i < |objects| ==> IsRecent(objects[i], floor)
    ensures RecentObjects(objects, floor) == objects
  {
    if objects != [] {
      var init := objects[..|objects| - 1];
      AllRecent(init, floor);
      assert init + [objects[|objects| - 1]] == objects;
    }
  }

  lemma ExampleAllRecent()
    ensures Recent(ExampleObjects(), 1772215200, DefaultConfig) == ExampleObjects()
  {
    AllRecent(ExampleObjects(), WindowFloor(1772215200, 7));
  }

  /** Only the reminder is overdue. */
  lemma ExampleOverdue()
    ensures CountOverdue(ExampleObjects(), 1772215200) == 1
  {
    var xs := ExampleObjects();
    assert xs[..2][..1] == xs[..1] && xs[..1][..0] == [];
  }

  /** Only the event lies in the next 24 hours. */
  lemma ExampleUpcoming()
    ensures CountUpcoming(ExampleObjects(), 1772215200) == 1
  {
    var xs := ExampleObjects();
    assert xs[..2][..1] == xs[..1] && xs[..1][..0] == [];
  }

  lemma ExampleActiveDomains()
    ensures ActiveDomains(ExampleObjects()) == {"work"}
  {
    var xs := ExampleObjects();
    ExampleDomain();
    assert HasDomain(xs[0]) by {
      StripOfStripped("work");
    }
    ImageWhereConstant(xs, DomainValue, HasDomain, "work");
  }

  lemma ExampleDomainContext()
    ensures DomainContext(ExampleObjects()) == "work"
  {
    var xs := ExampleObjects();
    ExampleDomain();
    assert DomainKey(xs[0]) == "work";
    assert forall x :: x in xs ==> DomainKey(x) == "work";
    MostFrequentUnique(xs, DomainKey, "work");
  }

  lemma ExampleRelationFields(createdAt: string)
    ensures var rel := ExampleRelation(createdAt);
      TextField(rel, "relation_type") == "FOLLOW_UP" && TextField(rel, "from_canonical_id") == "co_1"
      && Get(rel, "created_at") == JStr(createdAt)
  {
    var rel := ExampleRelation(createdAt);
    GetLast(rel, 1);
    GetLast(rel, 3);
    GetLast(rel, 6);
  }

  lemma ExampleFollowUp(createdAt: string, ids: set<string>)
    requires ParseIsoText(createdAt).None? || ParseIsoText(createdAt).value >= 1772215200 - 7 * 86400
    requires "co_1" in ids
    ensures CountsAsFollowUp(ExampleRelation(createdAt), ids, WindowFloor(1772215200, 7))
  {
    var rel := ExampleRelation(createdAt);
    ExampleRelationFields(createdAt);
    HintOfText(rel, createdAt);
    FollowUpCounted(rel, ids, WindowFloor(1772215200, 7));
  }

  lemma HintOfText(rel: Fields, text: string)
    requires Get(rel, "created_at") == JStr(text)
    ensures RelationTimeHint(rel) == ParseIsoText(text)
  {
  }

  lemma FollowUpCounted(rel: Fields, ids: set<string>, floor: int)
    requires TextField(rel, "relation_type") == "FOLLOW_UP" && TextField(rel, "from_canonical_id") in ids
    requires RelationTimeHint(rel).None? || RelationTimeHint(rel).value >= floor
    ensures CountsAsFollowUp(rel, ids, floor)
  {
  }

  /** The engine's example at 2026-02-27T18:00Z: all three records are
      recent, one reminder is overdue, one event is upcoming, the single
      FOLLOW_UP edge counts (its created_at lies inside the window or does
      not parse), there is one active domain and the context is "work". */
  lemma ExampleSnapshot(createdAt: string)
    requires ParseIsoText(createdAt).None? || ParseIsoText(createdAt).value >= 1772215200 - 7 * 86400
    ensures var s := Calc(ExampleObjects(), [ExampleRelation(createdAt)], 1772215200, DefaultConfig);
      s.features == Features(3, 1, 1, 1, 1) && s.domainContext == "work"
  {
    var xs := ExampleObjects();
    var rels := [ExampleRelation(createdAt)];
    ExampleAllRecent();
    ExampleOverdue();
    ExampleUpcoming();
    ExampleActiveDomains();
    ExampleDomainContext();
    assert "co_1" in Ids(xs) by {
      assert xs[0] in xs;
    }
    ExampleFollowUp(createdAt, Ids(xs));
    assert FollowUpCount(rels, 1, Ids(xs), WindowFloor(1772215200, 7)) == 1;
  }
}
