/** Deterministic identifiers: a payload of string fields is rendered as
    stable JSON (sorted keys, no spaces, ASCII only) and hashed; the id is a
    prefix followed by the first 24 hex digits of the digest. */
module DeterministicId {
  import opened Text
  import opened Sorting

  function HexChar(d: int): char
    requires 0 <= d < 16
  {
    "0123456789abcdef"[d]
  }

  predicate IsHex(c: char) {
    '0' <= c <= '9' || 'a' <= c <= 'f'
  }

  /** The low `width` hex digits of n, zero padded. */
  function HexDigits(n: nat, width: nat): (r: string)
    ensures |r| == width
    ensures forall k :: 0 <= k < |r| ==> IsHex(r[k])
  {
    if width == 0 then "" else HexDigits(n / 16, width - 1) + [HexChar(n % 16)]
  }

  /** One character as json.dumps(..., ensure_ascii=True) writes it inside a
      string literal: printable ASCII other than '"' and '\' is kept, the
      usual control characters get their short escapes, everything else is
      written as \uXXXX (UTF-16 code units). */
  function EscapeChar(c: char): string {
    if c == '"' then "\\\""
    else if c == '\\' then "\\\\"
    else if ' ' <= c <= '~' then [c]
    else if c == '\n' then "\\n"
    else if c == '\r' then "\\r"
    else if c == '\t' then "\\t"
    else if c == '\U{0008}' then "\\b"
    else if c == '\U{000C}' then "\\f"
    else if c as int < 0x1_0000 then "\\u" + HexDigits(c as int, 4)
    else
      var v := c as int - 0x1_0000;
      "\\u" + HexDigits(0xD800 + v / 0x400, 4) + "\\u" + HexDigits(0xDC00 + v % 0x400, 4)
  }

  function Escape(s: string): (r: string)
    ensures forall k :: 0 <= k < |r| ==> ' ' <= r[k] <= '~'
  {
    if s == [] then "" else EscapeChar(s[0]) + Escape(s[1..])
  }

  function Quote(s: string): string {
    "\"" + Escape(s) + "\""
  }

  function FieldKey(f: (string, string)): seq<string> {
    [f.0]
  }

  function Member(f: (string, string)): string {
    Quote(f.0) + ":" + Quote(f.1)
  }

  /** json.dumps(payload, sort_keys=True, separators=(",", ":"), ensure_ascii=True)
      for a dict of strings. The text is pure printable ASCII. */
  function StableJson(payload: seq<(string, string)>): (r: string)
  {
    "{" + Members(SortBy(payload, FieldKey)) + "}"
  }

  /** The members of an object, each written "key":"value", joined with ",". */
  function Members(fields: seq<(string, string)>): string {
    if fields == [] then ""
    else if |fields| == 1 then Member(fields[0])
    else Member(fields[0]) + "," + Members(fields[1..])
  }

  predicate DistinctFieldNames(payload: seq<(string, string)>) {
    forall i, j :: 0 <= i < j < |payload| ==> payload[i].0 != payload[j].0
  }

  /** Because keys are sorted, the order in which the payload's fields are
      written down does not change the stable JSON text. */
  lemma {:induction false} StableJsonOrderIndependent(p: seq<(string, string)>, q: seq<(string, string)>)
    requires DistinctFieldNames(p) && multiset(p) == multiset(q)
    ensures StableJson(p) == StableJson(q)
  {
    var sp := SortBy(p, FieldKey);
    var sq := SortBy(q, FieldKey);
    SortBySorted(p, FieldKey);
    SortBySorted(q, FieldKey);
    SortByPermutation(p, FieldKey);
    SortByPermutation(q, FieldKey);
    DistinctKeysStrict(p, sp);
    DistinctKeysStrict(p, sq);
    StrictlySortedUnique(sp, sq, FieldKey);
  }

  lemma DistinctKeysStrict(p: seq<(string, string)>, s: seq<(string, string)>)
    requires DistinctFieldNames(p) && multiset(s) == multiset(p)
    requires SortedBy(s, FieldKey)
    ensures StrictlySortedBy(s, FieldKey)
  {
    forall i, j | 0 <= i < j < |s|
      ensures FieldKey(s[i]) != FieldKey(s[j])
    {
      assert s[i] in multiset(p) && s[j] in multiset(p);
      var a :| 0 <= a < |p| && p[a] == s[i];
      var b :| 0 <= b < |p| && p[b] == s[j];
      if s[i].0 == s[j].0 {
        assert a == b;
        DistinctAfterPermutation(p, s, i, j);
      }
    }
    SortedDistinctIsStrict(s, FieldKey);
  }

  const HashModulus: nat := 0x1_0000_0000_0000_0000_0000_0000

  /** Stand-in for int(sha256(text.encode("utf-8")).hexdigest()[:24], 16): a
      polynomial hash of the text reduced to 96 bits. Only determinism, the
      length and the alphabet of the digest matter to the pipeline. */
  function HashText(text: string): (h: nat)
    ensures h < HashModulus
  {
    if text == [] then 0 else (HashText(text[..|text| - 1]) * 131 + text[|text| - 1] as int) % HashModulus
  }

  function Digest24(text: string): (r: string)
    ensures |r| == 24
    ensures forall k :: 0 <= k < |r| ==> IsHex(r[k])
  {
    HexDigits(HashText(text), 24)
  }

  /** prefix + the 24-digit digest of the stable JSON of the payload. */
  function PrefixedId(prefix: string, payload: seq<(string, string)>): (r: string)
    ensures |r| == |prefix| + 24
    ensures StartsWith(r, prefix)
    ensures forall k :: |prefix| <= k < |r| ==> IsHex(r[k])
  {
    var d := Digest24(StableJson(payload));
    assert (prefix + d)[..|prefix|] == prefix;
    prefix + d
  }

  lemma HexNotSpace(c: char)
    requires IsHex(c)
    ensures !IsSpace(c)
  {
  }

  /** An id that starts with a printable prefix and ends in hex digits has
      no surrounding whitespace. */
  lemma PrefixedIdStripped(prefix: string, payload: seq<(string, string)>)
    requires prefix != [] && !IsSpace(prefix[0])
    ensures PrefixedId(prefix, payload) != [] && IsStripped(PrefixedId(prefix, payload))
  {
    var r := PrefixedId(prefix, payload);
    assert r[0] == r[..|prefix|][0] == prefix[0];
    HexNotSpace(r[|r| - 1]);
  }

  /** The payload hashed into a canonical id. */
  function CanonicalPayload(sourceSystem: string, sourceRecordType: string, sourceRecordId: string)
    : seq<(string, string)>
  {
    [("source_system", sourceSystem), ("source_record_type", sourceRecordType),
     ("source_record_id", sourceRecordId)]
  }

  /** make_canonical_id: "co_" + 24 hex digits. */
  function MakeCanonicalId(sourceSystem: string, sourceRecordType: string, sourceRecordId: string): (r: string)
    ensures |r| == 27 && StartsWith(r, "co_")
    ensures forall k :: 3 <= k < |r| ==> IsHex(r[k])
  {
    PrefixedId("co_", CanonicalPayload(sourceSystem, sourceRecordType, sourceRecordId))
  }

  /** A canonical id is never blank and has no surrounding whitespace, so
      the schema's stripping leaves it as it is. */
  lemma CanonicalIdStripped(sourceSystem: string, sourceRecordType: string, sourceRecordId: string)
    ensures var r := MakeCanonicalId(sourceSystem, sourceRecordType, sourceRecordId);
      r != [] && IsStripped(r)
  {
    PrefixedIdStripped("co_", CanonicalPayload(sourceSystem, sourceRecordType, sourceRecordId));
  }
}
