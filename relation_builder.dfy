/** Heuristic relation edges between canonical records. Every unordered pair
    of records is checked against four independent rules (same UTC day, a
    shared person, the same domain, a follow-up within seven days); the
    edges are then deduplicated by (from, to, type), the later edge winning,
    and sorted by that key. */
module RelationBuilder {
  import opened Wrappers
  import opened Text
  import opened Sorting
  import opened Collections
  import opened Timestamps
  import opened DeterministicId
  import opened CanonicalSchema
  import opened PairScan

  /** The four relation types, in the order the rules run. */
  datatype RelationType = SameDay | SamePerson | SameDomain | FollowUp {
    /** The name stored in relation_type. */
    function Name(): string {
      match this
      case SameDay => "SAME_DAY"
      case SamePerson => "SAME_PERSON"
      case SameDomain => "SAME_DOMAIN"
      case FollowUp => "FOLLOW_UP"
    }

    /** The position of the rule in _build_pair_relations. */
    function Rank(): int {
      match this
      case SameDay => 0
      case SamePerson => 1
      case SameDomain => 2
      case FollowUp => 3
    }
  }

  /** Longest gap between two anchors that still counts as a follow-up. */
  const FollowUpWindow: int := 7 * SecondsPerDay

  /** A relation edge. Its relation_id is not stored: the builder always
      derives it from the other four descriptive fields, so it is the member
      Id(). */
  datatype Relation = Relation(
    fromId: string,
    toId: string,
    relationType: RelationType,
    reason: string,
    confidence: real)
  {
    function Id(): (r: string)
      ensures |r| == 28 && StartsWith(r, "rel_")
    {
      MakeRelationId(fromId, toId, relationType, reason)
    }
  }

  /** "rel_" + the digest of the stable JSON of the four descriptive fields. */
  function MakeRelationId(fromId: string, toId: string, relationType: RelationType, reason: string): (r: string)
    ensures |r| == 28 && StartsWith(r, "rel_")
  {
    PrefixedId("rel_", [("from_canonical_id", fromId), ("to_canonical_id", toId),
                        ("relation_type", relationType.Name()), ("reason", reason)])
  }

  /** An edge as the builder creates it: its confidence is the default 1.0. */
  predicate WellFormed(e: Relation) {
    e.confidence == 1.0
  }

  function NewRelation(fromId: string, toId: string, relationType: RelationType, reason: string): (e: Relation)
    ensures WellFormed(e)
    ensures e.fromId == fromId && e.toId == toId && e.relationType == relationType && e.reason == reason
  {
    Relation(fromId, toId, relationType, reason, 1.0)
  }

  /** The two ids, smaller first. */
  function OrderedPair(a: string, b: string): (r: (string, string))
    ensures StrLessEq(r.0, r.1)
    ensures (r.0 == a && r.1 == b) || (r.0 == b && r.1 == a)
  {
    if StrLess(a, b) then (a, b)
    else
      StrLessConnex(a, b);
      (b, a)
  }

  /** The ordered pair does not depend on the order of the arguments. */
  lemma OrderedPairSymmetric(a: string, b: string)
    ensures OrderedPair(a, b) == OrderedPair(b, a)
  {
    if a != b {
      StrLessTotal(a, b);
      if StrLess(a, b) { StrLessAsymmetric(a, b); } else { StrLessAsymmetric(b, a); }
    }
  }

  /** The first present of start, due, created, updated and end. */
  function AnchorDateTime(o: CanonicalObject): (r: Option<int>)
    ensures r.None? <==> o.startAt.None? && o.dueAt.None? && o.createdAt.None? && o.updatedAt.None? && o.endAt.None?
    ensures o.startAt.Some? ==> r == o.startAt
    ensures o.startAt.None? && o.dueAt.Some? ==> r == o.dueAt
    ensures o.startAt.None? && o.dueAt.None? && o.createdAt.Some? ==> r == o.createdAt
    ensures o.startAt.None? && o.dueAt.None? && o.createdAt.None? && o.updatedAt.Some? ==> r == o.updatedAt
    ensures o.startAt.None? && o.dueAt.None? && o.createdAt.None? && o.updatedAt.None? ==> r == o.endAt
  {
    if o.startAt.Some? then o.startAt
    else if o.dueAt.Some? then o.dueAt
    else if o.createdAt.Some? then o.createdAt
    else if o.updatedAt.Some? then o.updatedAt
    else o.endAt
  }

  /** The "YYYY-MM-DD" UTC date of the anchor, if any. */
  function AnchorDay(o: CanonicalObject): (r: Option<string>)
    ensures r.Some? <==> AnchorDateTime(o).Some?
    ensures r.Some? ==> r.value == DateIso(Day(AnchorDateTime(o).value))
  {
    match AnchorDateTime(o)
    case None => None
    case Some(t) => Some(DateIso(Day(t)))
  }

  /** [p.strip().lower() for p in ps if p and p.strip()] */
  function NormalizedPeople(ps: seq<string>): (r: seq<string>)
    ensures |r| <= |ps|
  {
    if ps == [] then []
    else
      var rest := NormalizedPeople(ps[1..]);
      if Strip(ps[0]) != [] then [Lower(Strip(ps[0]))] + rest else rest
  }

  /** p names the person x once stripped and lower-cased. */
  predicate NamesPerson(p: string, x: string) {
    Strip(p) != [] && Lower(Strip(p)) == x
  }

  lemma NormalizedPeopleHead(ps: seq<string>, x: string)
    requires ps != []
    ensures x in NormalizedPeople(ps) <==> NamesPerson(ps[0], x) || x in NormalizedPeople(ps[1..])
  {
  }

  lemma ExistsNamesSplit(ps: seq<string>, x: string)
    requires ps != []
    ensures (exists p :: p in ps && NamesPerson(p, x)) <==>
            NamesPerson(ps[0], x) || exists p :: p in ps[1..] && NamesPerson(p, x)
  {
    assert ps == [ps[0]] + ps[1..];
  }

  lemma {:induction false} NormalizedPeopleMembers(ps: seq<string>, x: string)
    ensures x in NormalizedPeople(ps) <==> exists p :: p in ps && NamesPerson(p, x)
  {
    if ps != [] {
      NormalizedPeopleMembers(ps[1..], x);
      NormalizedPeopleHead(ps, x);
      ExistsNamesSplit(ps, x);
    }
  }

  /** _people_set: the non-blank people of a record, stripped and lower-cased. */
  function PeopleSet(o: CanonicalObject): set<string> {
    set x | x in NormalizedPeople(o.people)
  }

  /** PeopleSet is {p.strip().lower() for p in o.people if p and p.strip()}. */
  lemma PeopleSetMembers(o: CanonicalObject, x: string)
    ensures x in PeopleSet(o) <==> exists p :: p in o.people && NamesPerson(p, x)
  {
    NormalizedPeopleMembers(o.people, x);
  }

  /** sorted(_people_set(a) & _people_set(b)) */
  function SharedPeople(a: CanonicalObject, b: CanonicalObject): (r: seq<string>)
    ensures StrictlyAscending(r)
    ensures forall x :: x in r <==> x in PeopleSet(a) && x in PeopleSet(b)
  {
    SortedIntersection(NormalizedPeople(a.people), NormalizedPeople(b.people))
  }

  lemma SharedPeopleSymmetric(a: CanonicalObject, b: CanonicalObject)
    ensures SharedPeople(a, b) == SharedPeople(b, a)
  {
    AscendingUnique(SharedPeople(a, b), SharedPeople(b, a));
  }

  /** (o.domain or "").strip().lower() */
  function DomainValue(o: CanonicalObject): string {
    Lower(Strip(o.domain))
  }

  /** e joins a and b, in one direction or the other. */
  predicate Connects(e: Relation, a: CanonicalObject, b: CanonicalObject) {
    (e.fromId == a.canonicalId && e.toId == b.canonicalId)
    || (e.fromId == b.canonicalId && e.toId == a.canonicalId)
  }

  /** An undirected edge of type t between a and b with the given reason. */
  function UndirectedEdge(a: CanonicalObject, b: CanonicalObject, t: RelationType, reason: string): (e: Relation)
    ensures WellFormed(e) && Connects(e, a, b) && e.relationType == t && e.reason == reason
    ensures StrLessEq(e.fromId, e.toId)
  {
    var (f, g) := OrderedPair(a.canonicalId, b.canonicalId);
    NewRelation(f, g, t, reason)
  }

  function SameDayRule(a: CanonicalObject, b: CanonicalObject): (r: Option<Relation>)
    ensures r.Some? <==> AnchorDay(a).Some? && AnchorDay(b).Some? && AnchorDay(a) == AnchorDay(b)
    ensures r.Some? ==> r.value == UndirectedEdge(a, b, SameDay, "anchor_day=" + AnchorDay(a).value)
  {
    var da := AnchorDay(a);
    var db := AnchorDay(b);
    if da.Some? && db.Some? && da.value == db.value then
      Some(UndirectedEdge(a, b, SameDay, "anchor_day=" + da.value))
    else None
  }

  function SamePersonRule(a: CanonicalObject, b: CanonicalObject): (r: Option<Relation>)
    ensures r.Some? <==> SharedPeople(a, b) != []
    ensures r.Some? ==> r.value == UndirectedEdge(a, b, SamePerson, "people=" + Join(",", SharedPeople(a, b)))
  {
    var shared := SharedPeople(a, b);
    if shared != [] then Some(UndirectedEdge(a, b, SamePerson, "people=" + Join(",", shared))) else None
  }

  /** A same-person edge exists exactly when the two people sets meet. */
  lemma SamePersonIff(a: CanonicalObject, b: CanonicalObject)
    ensures SamePersonRule(a, b).Some? <==> exists x :: x in PeopleSet(a) && x in PeopleSet(b)
  {
    var s := SharedPeople(a, b);
    if s != [] {
      assert s[0] in PeopleSet(a) && s[0] in PeopleSet(b);
    }
  }

  function SameDomainRule(a: CanonicalObject, b: CanonicalObject): (r: Option<Relation>)
    ensures r.Some? <==> DomainValue(a) != [] && DomainValue(a) == DomainValue(b)
    ensures r.Some? ==> r.value == UndirectedEdge(a, b, SameDomain, "domain=" + DomainValue(a))
  {
    var da := DomainValue(a);
    var db := DomainValue(b);
    if da != [] && db != [] && da == db then Some(UndirectedEdge(a, b, SameDomain, "domain=" + da)) else None
  }

  /** The shared-context test of the follow-up rule. */
  predicate SharedContext(a: CanonicalObject, b: CanonicalObject) {
    SharedPeople(a, b) != [] || (DomainValue(a) != [] && DomainValue(a) == DomainValue(b))
  }

  /** The shared context is a shared person or an equal non-empty domain. */
  lemma SharedContextIff(a: CanonicalObject, b: CanonicalObject)
    ensures SharedContext(a, b) <==>
      (exists x :: x in PeopleSet(a) && x in PeopleSet(b)) || (DomainValue(a) != [] && DomainValue(a) == DomainValue(b))
  {
    SamePersonIff(a, b);
  }

  /** "delta_hours=%.2f" of a gap in seconds. */
  function DeltaHoursReason(delta: int): string {
    "delta_hours=" + FormatFixed(delta as real / 3600.0, 2)
  }

  /** The absolute time between two instants. */
  function Distance(x: int, y: int): (d: nat)
    ensures d == x - y || d == y - x
  {
    if x <= y then y - x else x - y
  }

  /** A follow-up edge exists exactly when both anchors exist, they differ
      by more than zero and at most seven days, and the records share a
      context; it points from the earlier record to the later one. */
  function FollowUpRule(a: CanonicalObject, b: CanonicalObject): (r: Option<Relation>)
    ensures r.Some? <==> (AnchorDateTime(a).Some? && AnchorDateTime(b).Some?
      && 0 < Distance(AnchorDateTime(a).value, AnchorDateTime(b).value) <= FollowUpWindow
      && SharedContext(a, b))
    ensures r.Some? ==> WellFormed(r.value) && r.value.relationType == FollowUp
    ensures r.Some? ==> r.value.reason == DeltaHoursReason(Distance(AnchorDateTime(a).value, AnchorDateTime(b).value))
    ensures r.Some? && AnchorDateTime(a).value < AnchorDateTime(b).value ==>
      r.value.fromId == a.canonicalId && r.value.toId == b.canonicalId
    ensures r.Some? && AnchorDateTime(b).value < AnchorDateTime(a).value ==>
      r.value.fromId == b.canonicalId && r.value.toId == a.canonicalId
  {
    var ta := AnchorDateTime(a);
    var tb := AnchorDateTime(b);
    if ta.Some? && tb.Some? then
      var delta := Distance(ta.value, tb.value);
      var (earlier, later) := if ta.value <= tb.value then (a, b) else (b, a);
      if 0 < delta <= FollowUpWindow && SharedContext(a, b) then
        Some(NewRelation(earlier.canonicalId, later.canonicalId, FollowUp, DeltaHoursReason(delta)))
      else None
    else None
  }

  /** _build_pair_relations: the four rules in order, each contributing at most one edge. */
  function BuildPairRelations(a: CanonicalObject, b: CanonicalObject): (r: seq<Relation>)
    ensures |r| <= 4
  {
    SameDayRule(a, b).ToSeq() + SamePersonRule(a, b).ToSeq()
    + SameDomainRule(a, b).ToSeq() + FollowUpRule(a, b).ToSeq()
  }

  /** An edge the pair (a, b) can produce: well formed and joining a and b. */
  predicate PairEdge(e: Relation, a: CanonicalObject, b: CanonicalObject) {
    WellFormed(e) && Connects(e, a, b)
  }

  lemma FollowUpConnects(a: CanonicalObject, b: CanonicalObject)
    requires FollowUpRule(a, b).Some?
    ensures Connects(FollowUpRule(a, b).value, a, b)
  {
  }

  /** Edges of (a, b) whose types come in strictly increasing rule order,
      all before rule k. */
  predicate RankedEdges(s: seq<Relation>, a: CanonicalObject, b: CanonicalObject, k: int) {
    (forall e :: e in s ==> PairEdge(e, a, b) && e.relationType.Rank() < k)
    && forall i, j :: 0 <= i < j < |s| ==> s[i].relationType.Rank() < s[j].relationType.Rank()
  }

  /** What rule k may contribute: at most one edge of (a, b) of rank k. */
  predicate RuleEdge(o: Option<Relation>, a: CanonicalObject, b: CanonicalObject, k: int) {
    o.Some? ==> PairEdge(o.value, a, b) && o.value.relationType.Rank() == k
  }

  lemma AppendRuleEdge(s: seq<Relation>, o: Option<Relation>, a: CanonicalObject, b: CanonicalObject, k: int)
    requires RankedEdges(s, a, b, k) && RuleEdge(o, a, b, k)
    ensures RankedEdges(s + o.ToSeq(), a, b, k + 1)
  {
    var r := s + o.ToSeq();
    forall i, j | 0 <= i < j < |r|
      ensures r[i].relationType.Rank() < r[j].relationType.Rank()
    {
      if j < |s| {
        assert r[i] == s[i] && r[j] == s[j];
      } else {
        assert r[i] == s[i] && s[i] in s;
      }
    }
  }

  lemma SameDayEdge(a: CanonicalObject, b: CanonicalObject)
    ensures RuleEdge(SameDayRule(a, b), a, b, 0)
  {
  }

  lemma SamePersonEdge(a: CanonicalObject, b: CanonicalObject)
    ensures RuleEdge(SamePersonRule(a, b), a, b, 1)
  {
  }

  lemma SameDomainEdge(a: CanonicalObject, b: CanonicalObject)
    ensures RuleEdge(SameDomainRule(a, b), a, b, 2)
  {
  }

  lemma FollowUpEdge(a: CanonicalObject, b: CanonicalObject)
    ensures RuleEdge(FollowUpRule(a, b), a, b, 3)
  {
  }

  /** Four rule outcomes of ranks 0 to 3, concatenated in rule order. */
  lemma FourRuleEdges(o1: Option<Relation>, o2: Option<Relation>, o3: Option<Relation>, o4: Option<Relation>,
                      a: CanonicalObject, b: CanonicalObject)
    requires RuleEdge(o1, a, b, 0) && RuleEdge(o2, a, b, 1) && RuleEdge(o3, a, b, 2) && RuleEdge(o4, a, b, 3)
    ensures RankedEdges(o1.ToSeq() + o2.ToSeq() + o3.ToSeq() + o4.ToSeq(), a, b, 4)
  {
    var s1 := o1.ToSeq();
    AppendRuleEdge([], o1, a, b, 0);
    assert [] + s1 == s1;
    AppendRuleEdge(s1, o2, a, b, 1);
    AppendRuleEdge(s1 + o2.ToSeq(), o3, a, b, 2);
    AppendRuleEdge(s1 + o2.ToSeq() + o3.ToSeq(), o4, a, b, 3);
  }

  /** The edges of one pair are edges of that pair, in strictly increasing
      rule order. */
  lemma PairRelationsRanked(a: CanonicalObject, b: CanonicalObject)
    ensures RankedEdges(BuildPairRelations(a, b), a, b, 4)
  {
    SameDayEdge(a, b);
    SamePersonEdge(a, b);
    SameDomainEdge(a, b);
    FollowUpEdge(a, b);
    FourRuleEdges(SameDayRule(a, b), SamePersonRule(a, b), SameDomainRule(a, b), FollowUpRule(a, b), a, b);
  }

  /** Each edge of one pair joins that pair, and no type occurs twice. */
  lemma PairRelationsShape(a: CanonicalObject, b: CanonicalObject)
    ensures forall e :: e in BuildPairRelations(a, b) ==> PairEdge(e, a, b)
    ensures var r := BuildPairRelations(a, b);
      forall i, j :: 0 <= i < j < |r| ==> r[i].relationType != r[j].relationType
  {
    PairRelationsRanked(a, b);
  }

  lemma SameDayRuleSymmetric(a: CanonicalObject, b: CanonicalObject)
    ensures SameDayRule(a, b) == SameDayRule(b, a)
  {
    OrderedPairSymmetric(a.canonicalId, b.canonicalId);
  }

  lemma SamePersonRuleSymmetric(a: CanonicalObject, b: CanonicalObject)
    ensures SamePersonRule(a, b) == SamePersonRule(b, a)
  {
    OrderedPairSymmetric(a.canonicalId, b.canonicalId);
    SharedPeopleSymmetric(a, b);
  }

  lemma SameDomainRuleSymmetric(a: CanonicalObject, b: CanonicalObject)
    ensures SameDomainRule(a, b) == SameDomainRule(b, a)
  {
    OrderedPairSymmetric(a.canonicalId, b.canonicalId);
  }

  lemma FollowUpRuleSymmetric(a: CanonicalObject, b: CanonicalObject)
    ensures FollowUpRule(a, b) == FollowUpRule(b, a)
  {
    SharedPeopleSymmetric(a, b);
    assert SharedContext(a, b) == SharedContext(b, a);
  }

  /** Swapping the two records changes nothing: the undirected rules order
      their endpoints, and the follow-up rule orders them by time. */
  lemma PairRelationsSymmetric(a: CanonicalObject, b: CanonicalObject)
    ensures BuildPairRelations(a, b) == BuildPairRelations(b, a)
  {
    SameDayRuleSymmetric(a, b);
    SamePersonRuleSymmetric(a, b);
    SameDomainRuleSymmetric(a, b);
    FollowUpRuleSymmetric(a, b);
  }

  /** The same-day rule does not depend on the records' order either way it
      is asked: records anchored on one UTC day are always linked. */
  lemma SameDayOnSameDay(a: CanonicalObject, b: CanonicalObject)
    requires AnchorDateTime(a).Some? && AnchorDateTime(b).Some?
    requires Day(AnchorDateTime(a).value) == Day(AnchorDateTime(b).value)
    ensures SameDayRule(a, b).Some?
  {
  }

  /** The dedup key (from, to, type). */
  function RelKey(e: Relation): seq<string> {
    [e.fromId, e.toId, e.relationType.Name()]
  }

  /** Every edge the nested loop generates, in generation order. */
  function Edges(objects: seq<CanonicalObject>): seq<Relation> {
    AllItems(objects, BuildPairRelations, |objects|)
  }

  /** build_relations: the dict filled pair by pair keeps the last edge per
      key; its values are returned sorted by key. */
  function BuildRelationsSpec(objects: seq<CanonicalObject>): seq<Relation> {
    SortBy(LastWins(Edges(objects), RelKey), RelKey)
  }

  /** A well-formed edge between the records at two distinct positions. */
  predicate Grounded(objects: seq<CanonicalObject>, e: Relation) {
    WellFormed(e)
    && exists x, y :: 0 <= x < |objects| && 0 <= y < |objects| && x != y
                      && e.fromId == objects[x].canonicalId && e.toId == objects[y].canonicalId
  }

  /** Every generated edge is well formed and joins the records at two
      distinct positions of the input. */
  lemma EdgeGrounded(objects: seq<CanonicalObject>, e: Relation)
    requires e in Edges(objects)
    ensures Grounded(objects, e)
  {
    AllItemsOrigin(objects, BuildPairRelations, |objects|, e);
    var i, j :| 0 <= i < j < |objects| && e in BuildPairRelations(objects[i], objects[j]);
    PairRelationsShape(objects[i], objects[j]);
    assert PairEdge(e, objects[i], objects[j]);
    if e.fromId == objects[i].canonicalId && e.toId == objects[j].canonicalId {
      assert e.fromId == objects[i].canonicalId && e.toId == objects[j].canonicalId && i != j;
    } else {
      assert e.fromId == objects[j].canonicalId && e.toId == objects[i].canonicalId && j != i;
    }
  }

  /** The result of build_relations: strictly ascending by (from, to, type),
      hence free of duplicate keys; made only of generated edges, each the
      last generated edge with its key; and covering every generated key. */
  lemma BuildRelationsProperties(objects: seq<CanonicalObject>)
    ensures var edges := Edges(objects); var r := BuildRelationsSpec(objects);
      StrictlySortedBy(r, RelKey)
      && (forall e :: e in r ==> e in edges && HasKey(edges, RelKey, RelKey(e)) && e == LastWith(edges, RelKey, RelKey(e)))
      && (forall e :: e in edges ==> exists f :: f in r && RelKey(f) == RelKey(e))
  {
    SortedLastWins(Edges(objects), RelKey);
  }

  /** build_relations as the source writes it: a nested index loop filling
      the dedup dict, then a sort of its values. */
  method BuildRelations(objects: seq<CanonicalObject>) returns (r: seq<Relation>)
    ensures r == BuildRelationsSpec(objects)
  {
    var keys, dedup := StorePairs(objects, BuildPairRelations, RelKey);
    var values := Values(keys, dedup, Edges(objects), RelKey);
    r := SortBy(values, RelKey);
  }

  /** The names of the four types are distinct. */
  lemma NameInjective(s: RelationType, t: RelationType)
    requires s.Name() == t.Name()
    ensures s == t
  {
    assert "SAME_DAY"[5] == 'D' && "SAME_PERSON"[5] == 'P' && "SAME_DOMAIN"[5] == 'D';
    assert "SAME_DOMAIN"[6] == 'O' && "SAME_DAY"[6] == 'A' && "FOLLOW_UP"[0] == 'F';
  }

  /** Some edge of s has type t. */
  predicate HasType(s: seq<Relation>, t: RelationType) {
    exists e :: e in s && e.relationType == t
  }

  /** The type of any edge a pair generates survives the dedup: the edge
      that wins its key has the same type. */
  lemma PairTypeSurvives(objects: seq<CanonicalObject>, i: int, j: int, e: Relation)
    requires 0 <= i < j < |objects| && e in BuildPairRelations(objects[i], objects[j])
    ensures HasType(BuildRelationsSpec(objects), e.relationType)
  {
    AllItemsComplete(objects, BuildPairRelations, i, j, |objects|, e);
    BuildRelationsProperties(objects);
    var f :| f in BuildRelationsSpec(objects) && RelKey(f) == RelKey(e);
    assert RelKey(f)[2] == RelKey(e)[2];
    NameInjective(f.relationType, e.relationType);
  }

  /** Two records anchored at different instants of one UTC day, sharing a
      person and a non-empty domain, produce all four rules' edges. */
  lemma PairHasAllFour(a: CanonicalObject, b: CanonicalObject)
    requires AnchorDateTime(a).Some? && AnchorDateTime(b).Some?
    requires Day(AnchorDateTime(a).value) == Day(AnchorDateTime(b).value)
    requires AnchorDateTime(a).value != AnchorDateTime(b).value
    requires exists x :: x in PeopleSet(a) && x in PeopleSet(b)
    requires DomainValue(a) != [] && DomainValue(a) == DomainValue(b)
    ensures SameDayRule(a, b).Some? && SamePersonRule(a, b).Some?
    ensures SameDomainRule(a, b).Some? && FollowUpRule(a, b).Some?
  {
    SameDayOnSameDay(a, b);
    SamePersonIff(a, b);
    SharedContextIff(a, b);
    DayBounds(AnchorDateTime(a).value);
    DayBounds(AnchorDateTime(b).value);
  }

  /** The relation builder's three-record test in general form: as soon as
      two of the records are anchored at different instants of one UTC day
      and share a person and a non-empty domain, build_relations returns
      edges of all four types. */
  lemma AllFourTypes(objects: seq<CanonicalObject>, i: int, j: int)
    requires 0 <= i < j < |objects|
    requires AnchorDateTime(objects[i]).Some? && AnchorDateTime(objects[j]).Some?
    requires Day(AnchorDateTime(objects[i]).value) == Day(AnchorDateTime(objects[j]).value)
    requires AnchorDateTime(objects[i]).value != AnchorDateTime(objects[j]).value
    requires exists x :: x in PeopleSet(objects[i]) && x in PeopleSet(objects[j])
    requires DomainValue(objects[i]) != [] && DomainValue(objects[i]) == DomainValue(objects[j])
    ensures HasType(BuildRelationsSpec(objects), SameDay) && HasType(BuildRelationsSpec(objects), SamePerson)
    ensures HasType(BuildRelationsSpec(objects), SameDomain) && HasType(BuildRelationsSpec(objects), FollowUp)
  {
    var a, b := objects[i], objects[j];
    PairHasAllFour(a, b);
    var pair := BuildPairRelations(a, b);
    assert SameDayRule(a, b).value in pair;
    assert SamePersonRule(a, b).value in pair;
    assert SameDomainRule(a, b).value in pair;
    assert FollowUpRule(a, b).value in pair;
    PairTypeSurvives(objects, i, j, SameDayRule(a, b).value);
    PairTypeSurvives(objects, i, j, SamePersonRule(a, b).value);
    PairTypeSurvives(objects, i, j, SameDomainRule(a, b).value);
    PairTypeSurvives(objects, i, j, FollowUpRule(a, b).value);
  }

  /** rebuild_and_store_relations: the store is replaced by the edges, and
      the number of edges written is returned. */
  method RebuildRelations(objects: seq<CanonicalObject>) returns (stored: seq<Relation>, count: nat)
    ensures stored == BuildRelationsSpec(objects) && count == |stored|
  {
    stored := BuildRelations(objects);
    count := |stored|;
  }
}
