/** The text a record is embedded as: its title, content, people and domain
    on four labelled lines, with the people trimmed, deduplicated without
    regard to case and sorted by their lowercase form. */
module StructuredText {
  import opened Text
  import opened Collections
  import opened Sorting
  import opened CanonicalSchema

  function LowerKey(p: string): seq<string> {
    [Lower(p)]
  }

  function KeySet(names: seq<string>, key: string -> string): set<string> {
    set x | x in names :: key(x)
  }

  /** The list a loop like _normalize_people builds: each entry normalised,
      blanks skipped, and an entry skipped when one with the same key came
      earlier. */
  function DedupBy(people: seq<string>, norm: string -> string, key: string -> string): seq<string> {
    if people == [] then []
    else
      var r := DedupBy(people[..|people| - 1], norm, key);
      var entry := norm(people[|people| - 1]);
      if entry == [] || key(entry) in KeySet(r, key) then r else r + [entry]
  }

  /** The loop of _normalize_people: entries trimmed, keys lowercased. */
  function DedupPeople(people: seq<string>): seq<string> {
    DedupBy(people, Strip, Lower)
  }

  lemma DedupSnoc(people: seq<string>, person: string, norm: string -> string, key: string -> string)
    ensures DedupBy(people + [person], norm, key)
         == var r, entry := DedupBy(people, norm, key), norm(person);
            if entry == [] || key(entry) in KeySet(r, key) then r else r + [entry]
  {
    assert (people + [person])[..|people|] == people;
  }

  /** The loop of _normalize_people, before the final sort. */
  method DedupLoop(people: seq<string>) returns (normalized: seq<string>)
    ensures normalized == DedupPeople(people)
  {
    var seen: set<string> := {};
    normalized := [];
    for i := 0 to |people|
      invariant normalized == DedupBy(people[..i], Strip, Lower)
      invariant seen == KeySet(normalized, Lower)
    {
      DedupStep(people, i);
      var entry := Strip(people[i]);
      if entry == [] {
        continue;
      }
      var key := Lower(entry);
      if key in seen {
        continue;
      }
      seen := seen + {key};
      normalized := normalized + [entry];
    }
    assert people[..|people|] == people;
  }

  /** One turn of the loop: the next entry is appended unless it is blank
      or its key was seen, and appending it adds its key. */
  lemma DedupStep(people: seq<string>, i: nat)
    requires i < |people|
    ensures var r, entry := DedupBy(people[..i], Strip, Lower), Strip(people[i]);
      DedupBy(people[..i + 1], Strip, Lower)
        == (if entry == [] || Lower(entry) in KeySet(r, Lower) then r else r + [entry])
      && KeySet(r + [entry], Lower) == KeySet(r, Lower) + {Lower(entry)}
  {
    TakeNext(people, i);
    DedupSnoc(people[..i], people[i], Strip, Lower);
    KeySetSnoc(DedupBy(people[..i], Strip, Lower), Strip(people[i]), Lower);
  }

  lemma KeySetSnoc(names: seq<string>, x: string, key: string -> string)
    ensures KeySet(names + [x], key) == KeySet(names, key) + {key(x)}
  {
    assert forall y :: y in names + [x] <==> y in names || y == x;
  }

  /** _normalize_people */
  function NormalizedPeople(people: seq<string>): seq<string> {
    SortBy(DedupPeople(people), LowerKey)
  }

  method NormalizePeople(people: seq<string>) returns (r: seq<string>)
    ensures r == NormalizedPeople(people)
  {
    var normalized := DedupLoop(people);
    r := SortBy(normalized, LowerKey);
  }

  /** p is the normalised form of the first non-blank entry with p's key. */
  predicate FirstSpelling(people: seq<string>, norm: string -> string, key: string -> string, p: string) {
    exists i :: 0 <= i < |people| && p == norm(people[i])
      && forall j :: 0 <= j < i ==> norm(people[j]) == [] || key(norm(people[j])) != key(p)
  }

  /** One step of the loop only ever adds a key. */
  lemma DedupGrows(people: seq<string>, norm: string -> string, key: string -> string)
    requires people != []
    ensures var r0, r := DedupBy(people[..|people| - 1], norm, key), DedupBy(people, norm, key);
      var entry := norm(people[|people| - 1]);
      KeySet(r, key) == KeySet(r0, key) + (if entry == [] then {} else {key(entry)})
  {
    var r0 := DedupBy(people[..|people| - 1], norm, key);
    var entry := norm(people[|people| - 1]);
    if entry != [] && key(entry) !in KeySet(r0, key) {
      KeySetSnoc(r0, entry, key);
    }
  }

  /** Every non-blank entry is represented by a kept name with its key. */
  lemma {:induction false} DedupCovers(people: seq<string>, norm: string -> string, key: string -> string)
    ensures forall i :: 0 <= i < |people| && norm(people[i]) != [] ==> key(norm(people[i])) in KeySet(DedupBy(people, norm, key), key)
  {
    if people != [] {
      var n := |people| - 1;
      var init := people[..n];
      DedupCovers(init, norm, key);
      DedupGrows(people, norm, key);
      assert forall i :: 0 <= i < n ==> people[i] == init[i];
    }
  }

  predicate DistinctKeys(r: seq<string>, key: string -> string) {
    forall k, l :: 0 <= k < l < |r| ==> key(r[k]) != key(r[l])
  }

  /** No two kept names have the same key. */
  lemma {:induction false} DedupDistinct(people: seq<string>, norm: string -> string, key: string -> string)
    ensures DistinctKeys(DedupBy(people, norm, key), key)
  {
    if people != [] {
      var n := |people| - 1;
      var init := people[..n];
      DedupDistinct(init, norm, key);
      var r0 := DedupBy(init, norm, key);
      var entry := norm(people[n]);
      if !(entry == [] || key(entry) in KeySet(r0, key)) {
        var r := r0 + [entry];
        assert DedupBy(people, norm, key) == r;
        forall k, l | 0 <= k < l < |r| ensures key(r[k]) != key(r[l]) {
          assert r[k] == r0[k] && key(r0[k]) in KeySet(r0, key);
          if l < |r0| {
            assert r[l] == r0[l];
          } else {
            assert r[l] == entry;
          }
        }
      } else {
        assert DedupBy(people, norm, key) == r0;
      }
    }
  }

  predicate FirstSpellings(r: seq<string>, people: seq<string>, norm: string -> string, key: string -> string) {
    forall k :: 0 <= k < |r| ==> r[k] != [] && FirstSpelling(people, norm, key, r[k])
  }

  /** Every kept name is non-empty and the first spelling of its key. */
  lemma {:induction false} DedupSpellings(people: seq<string>, norm: string -> string, key: string -> string)
    ensures FirstSpellings(DedupBy(people, norm, key), people, norm, key)
  {
    if people != [] {
      var n := |people| - 1;
      var init := people[..n];
      DedupSpellings(init, norm, key);
      DedupCovers(init, norm, key);
      var r0 := DedupBy(init, norm, key);
      var entry := norm(people[n]);
      assert forall i :: 0 <= i < n ==> people[i] == init[i];
      forall p | FirstSpelling(init, norm, key, p) ensures FirstSpelling(people, norm, key, p) {
        var i :| 0 <= i < |init| && p == norm(init[i])
                 && forall j :: 0 <= j < i ==> norm(init[j]) == [] || key(norm(init[j])) != key(p);
        assert p == norm(people[i]);
      }
      if !(entry == [] || key(entry) in KeySet(r0, key)) {
        var r := r0 + [entry];
        assert DedupBy(people, norm, key) == r;
        assert FirstSpelling(people, norm, key, entry) by {
          assert entry == norm(people[n]);
          forall j | 0 <= j < n && norm(people[j]) != [] ensures key(norm(people[j])) != key(entry) {
            assert norm(people[j]) == norm(init[j]);
          }
        }
        forall k | 0 <= k < |r| ensures r[k] != [] && FirstSpelling(people, norm, key, r[k]) {
          if k < |r0| {
            assert r[k] == r0[k];
          } else {
            assert r[k] == entry;
          }
        }
      } else {
        assert DedupBy(people, norm, key) == r0;
      }
    }
  }

  /** _normalize_people: non-empty trimmed names, each the first spelling of
      its person, strictly ascending by lowercase form (so no two differ only
      in case), and every non-blank input represented. */
  lemma NormalizedPeopleFacts(people: seq<string>)
    ensures var r := NormalizedPeople(people);
      (forall p :: p in r ==> p != [] && IsStripped(p) && FirstSpelling(people, Strip, Lower, p))
      && StrictlySortedBy(r, LowerKey)
      && (forall i :: 0 <= i < |people| && Strip(people[i]) != [] ==> Lower(Strip(people[i])) in KeySet(r, Lower))
  {
    var d := DedupPeople(people);
    DedupSpellings(people, Strip, Lower);
    DedupDistinct(people, Strip, Lower);
    DedupCovers(people, Strip, Lower);
    forall p | p in d ensures IsStripped(p) {
      var k :| 0 <= k < |d| && d[k] == p;
      assert FirstSpelling(people, Strip, Lower, p);
      var i :| 0 <= i < |people| && p == Strip(people[i]);
      StripIsStripped(people[i]);
    }
    SortedDistinctKeys(d, LowerKey);
    SortByElements(d, LowerKey);
    assert KeySet(NormalizedPeople(people), Lower) == KeySet(d, Lower);
  }

  /** ", ".join(people) if people else "" */
  function PeopleBlob(people: seq<string>): string {
    if people != [] then Join(", ", people) else ""
  }

  function TitleLine(o: CanonicalObject): string { "title: " + Strip(o.title) }
  function ContentLine(o: CanonicalObject): string { "content: " + Strip(o.content) }
  function PeopleLine(o: CanonicalObject): string { "people: " + PeopleBlob(NormalizedPeople(o.people)) }
  function DomainLine(o: CanonicalObject): string { "domain: " + Strip(o.domain) }

  /** build_structured_embedding_text */
  function EmbeddingText(o: CanonicalObject): string {
    Join("\n", [TitleLine(o), ContentLine(o), PeopleLine(o), DomainLine(o)])
  }

  /** The text is exactly the four labelled lines, in this order, separated
      by single newlines. */
  lemma EmbeddingTextLines(o: CanonicalObject)
    ensures EmbeddingText(o)
         == TitleLine(o) + "\n" + ContentLine(o) + "\n" + PeopleLine(o) + "\n" + DomainLine(o)
  {
    JoinFour("\n", TitleLine(o), ContentLine(o), PeopleLine(o), DomainLine(o));
  }

  lemma JoinFour(sep: string, a: string, b: string, c: string, d: string)
    ensures Join(sep, [a, b, c, d]) == a + sep + b + sep + c + sep + d
  {
    var parts := [a, b, c, d];
    assert parts[1..] == [b, c, d] && parts[1..][1..] == [c, d] && parts[1..][1..][1..] == [d];
    assert Join(sep, [c, d]) == c + sep + d;
    assert Join(sep, [b, c, d]) == b + sep + (c + sep + d);
    assert Join(sep, parts) == a + sep + (b + sep + (c + sep + d));
  }

  /** Only the title, content, people and domain reach the text: records
      that agree on those embed alike, whatever their labels, ids, sources
      or timestamps. */
  lemma EmbeddingTextUsesFourFields(a: CanonicalObject, b: CanonicalObject)
    requires a.title == b.title && a.content == b.content && a.people == b.people && a.domain == b.domain
    ensures EmbeddingText(a) == EmbeddingText(b)
  {
  }

  /** A trimmed, non-blank first name is kept, and its key is then the only
      one seen. */
  lemma DedupOne(a: string)
    requires a != [] && IsStripped(a)
    ensures DedupPeople([a]) == [a] && KeySet([a], Lower) == {Lower(a)}
  {
    StripOfStripped(a);
    DedupSnoc([], a, Strip, Lower);
    assert [] + [a] == [a];
    assert KeySet([], Lower) == {};
    KeySetSnoc([], a, Lower);
  }

  /** A second spelling of a seen name is dropped. */
  lemma DedupRepeat(a: string, b: string)
    requires a != [] && IsStripped(a) && IsStripped(b) && Lower(a) == Lower(b)
    ensures DedupPeople([a, b]) == [a]
  {
    DedupOne(a);
    StripOfStripped(b);
    DedupSnoc([a], b, Strip, Lower);
    assert [a] + [b] == [a, b];
  }

  /** The loop over two spellings of one name and one other name keeps the
      first spelling and the other name. */
  lemma DedupThree(a: string, b: string, c: string)
    requires a != [] && IsStripped(a) && b != [] && IsStripped(b) && c != [] && IsStripped(c)
    requires Lower(a) == Lower(b) && Lower(c) != Lower(a)
    ensures DedupPeople([a, b, c]) == [a, c]
  {
    DedupRepeat(a, b);
    DedupOne(a);
    StripOfStripped(c);
    DedupSnoc([a, b], c, Strip, Lower);
    assert [a, b] + [c] == [a, b, c];
  }

  /** The people of the embedding-text test: two spellings of one name
      and a name that sorts first. The later spelling is dropped, the first
      spelling is kept, and the two names come out ordered by lowercase
      form, joined by ", ". */
  lemma CaseVariantsCollapse(a: string, b: string, c: string)
    requires a != [] && IsStripped(a) && b != [] && IsStripped(b) && c != [] && IsStripped(c)
    requires Lower(a) == Lower(b) && StrLess(Lower(c), Lower(a))
    ensures NormalizedPeople([a, b, c]) == [c, a]
    ensures PeopleBlob(NormalizedPeople([a, b, c])) == c + ", " + a
  {
    StrLessIrreflexive(Lower(a));
    DedupThree(a, b, c);
    assert [a, c][1..] == [c];
    assert SortBy([c], LowerKey) == [c];
    assert KeyLess(LowerKey(c), LowerKey(a));
    assert Insert(a, [c], LowerKey) == [c, a];
    assert [c, a][1..] == [a];
    assert Join(", ", [c, a]) == c + ", " + Join(", ", [a]);
  }

  /** Without people the people line is "people: " followed by nothing. */
  lemma NoPeopleBlob()
    ensures PeopleBlob(NormalizedPeople([])) == ""
  {
  }
}
