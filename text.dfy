/** String helpers standing in for Python's str.strip(), str.lower(), string
    comparison, str.join and integer/float formatting. */
module Text {

  /** The whitespace str.strip() removes, restricted to the ASCII range plus
      the C1 "next line" and no-break space. */
  predicate IsSpace(c: char) {
    c == ' ' || c == '\t' || c == '\n' || c == '\r' || c == '\U{000B}' || c == '\U{000C}'
    || c == '\U{001C}' || c == '\U{001D}' || c == '\U{001E}' || c == '\U{001F}'
    || c == '\U{0085}' || c == '\U{00A0}'
  }

  predicate AllSpace(s: string) {
    forall i :: 0 <= i < |s| ==> IsSpace(s[i])
  }

  /** Index of the first non-whitespace character at or after k, or |s|. */
  function SkipSpaceFrom(s: string, k: nat): (i: nat)
    requires k <= |s|
    ensures k <= i <= |s|
    ensures forall m :: k <= m < i ==> IsSpace(s[m])
    ensures i < |s| ==> !IsSpace(s[i])
    decreases |s| - k
  {
    if k < |s| && IsSpace(s[k]) then SkipSpaceFrom(s, k + 1) else k
  }

  /** One past the last non-whitespace character before k, or 0. */
  function SkipSpaceBack(s: string, k: nat): (j: nat)
    requires k <= |s|
    ensures j <= k
    ensures forall m :: j <= m < k ==> IsSpace(s[m])
    ensures j > 0 ==> !IsSpace(s[j - 1])
  {
    if k > 0 && IsSpace(s[k - 1]) then SkipSpaceBack(s, k - 1) else k
  }

  /** Where the stripped text starts and ends. */
  function StripStart(s: string): (i: nat)
    ensures i <= |s|
  {
    SkipSpaceFrom(s, 0)
  }

  function StripEnd(s: string): (j: nat)
    ensures StripStart(s) <= j <= |s|
  {
    var e := SkipSpaceBack(s, |s|);
    if e < StripStart(s) then StripStart(s) else e
  }

  /** Python's str.strip() with no argument. */
  function Strip(s: string): (r: string)
    ensures |r| <= |s|
    ensures r == [] || (!IsSpace(r[0]) && !IsSpace(r[|r| - 1]))
  {
    s[StripStart(s)..StripEnd(s)]
  }

  /** What strip() removes is whitespace, from both ends. */
  lemma StripRemovesSpace(s: string)
    ensures AllSpace(s[..StripStart(s)]) && AllSpace(s[StripEnd(s)..])
  {
  }

  /** A string is "stripped" when str.strip() leaves it unchanged. */
  predicate IsStripped(s: string) {
    s == [] || (!IsSpace(s[0]) && !IsSpace(s[|s| - 1]))
  }

  lemma StripOfStripped(s: string)
    requires IsStripped(s)
    ensures Strip(s) == s
  {
    if s != [] {
      assert SkipSpaceFrom(s, 0) == 0;
      assert SkipSpaceBack(s, |s|) == |s|;
    }
  }

  lemma StripIsStripped(s: string)
    ensures IsStripped(Strip(s))
  {
  }

  /** str.strip() is idempotent. */
  lemma StripIdempotent(s: string)
    ensures Strip(Strip(s)) == Strip(s)
  {
    StripIsStripped(s);
    StripOfStripped(Strip(s));
  }

  /** A string strips to "" exactly when it is all whitespace. */
  lemma StripEmptyIff(s: string)
    ensures Strip(s) == [] <==> AllSpace(s)
  {
    var i := StripStart(s);
    if i < |s| {
      assert !IsSpace(s[i]);
    }
  }

  function LowerChar(c: char): char {
    if 'A' <= c <= 'Z' then (c as int + 32) as char else c
  }

  /** Python's str.lower(), restricted to ASCII letters. */
  function Lower(s: string): (r: string)
    ensures |r| == |s|
    ensures forall i :: 0 <= i < |s| ==> r[i] == LowerChar(s[i])
  {
    if s == [] then [] else [LowerChar(s[0])] + Lower(s[1..])
  }

  predicate HasNoUpper(s: string) {
    forall i :: 0 <= i < |s| ==> !('A' <= s[i] <= 'Z')
  }

  lemma LowerOfLower(s: string)
    requires HasNoUpper(s)
    ensures Lower(s) == s
  {
  }

  lemma LowerIdempotent(s: string)
    ensures Lower(Lower(s)) == Lower(s)
  {
  }

  lemma LowerEmptyIff(s: string)
    ensures Lower(s) == [] <==> s == []
  {
  }

  /** Python's `<` on str: lexicographic order on code points. */
  predicate StrLess(a: string, b: string) {
    if |a| == 0 then |b| > 0
    else if |b| == 0 then false
    else if a[0] != b[0] then a[0] < b[0]
    else StrLess(a[1..], b[1..])
  }

  predicate StrLessEq(a: string, b: string) {
    a == b || StrLess(a, b)
  }

  lemma StrLessIrreflexive(a: string)
    ensures !StrLess(a, a)
  {
  }

  lemma {:induction false} StrLessTransitive(a: string, b: string, c: string)
    requires StrLess(a, b) && StrLess(b, c)
    ensures StrLess(a, c)
  {
    if |a| > 0 && |b| > 0 && |c| > 0 && a[0] == b[0] && b[0] == c[0] {
      StrLessTransitive(a[1..], b[1..], c[1..]);
    }
  }

  lemma {:induction false} StrLessTotal(a: string, b: string)
    requires a != b
    ensures StrLess(a, b) || StrLess(b, a)
  {
    if |a| > 0 && |b| > 0 && a[0] == b[0] {
      assert a == [a[0]] + a[1..] && b == [b[0]] + b[1..];
      StrLessTotal(a[1..], b[1..]);
    }
  }

  lemma StrLessConnex(a: string, b: string)
    ensures a == b || StrLess(a, b) || StrLess(b, a)
  {
    if a != b { StrLessTotal(a, b); }
  }

  lemma {:induction false} StrLessAsymmetric(a: string, b: string)
    requires StrLess(a, b)
    ensures !StrLess(b, a)
  {
    if |a| > 0 && |b| > 0 && a[0] == b[0] {
      StrLessAsymmetric(a[1..], b[1..]);
    }
  }

  /** Python's sep.join(parts). */
  function Join(sep: string, parts: seq<string>): string {
    if |parts| == 0 then ""
    else if |parts| == 1 then parts[0]
    else parts[0] + sep + Join(sep, parts[1..])
  }

  function DigitChar(d: int): char
    requires 0 <= d < 10
  {
    "0123456789"[d]
  }

  /** Decimal rendering of a natural number, as Python's str(n). */
  function NatToString(n: nat): (r: string)
    ensures |r| > 0
    ensures forall i :: 0 <= i < |r| ==> '0' <= r[i] <= '9'
  {
    if n < 10 then [DigitChar(n)] else NatToString(n / 10) + [DigitChar(n % 10)]
  }

  function IntToString(i: int): string {
    if i < 0 then "-" + NatToString(-i) else NatToString(i)
  }

  /** n rendered with at least `width` digits, zero padded on the left. */
  function PadNat(n: nat, width: nat): (r: string)
    ensures |r| >= width
  {
    var s := NatToString(n);
    if |s| >= width then s else seq(width - |s|, _ => '0') + s
  }

  function Pow10(d: nat): (r: nat)
    ensures r >= 1
  {
    if d == 0 then 1 else 10 * Pow10(d - 1)
  }

  /** The "%.<digits>f" rendering of a real number: the value is scaled by
      10^digits and rounded half up (IEEE binary rounding of the source's
      floats is not modelled). */
  function FormatFixed(r: real, digits: nat): string {
    FormatScaled((r * Pow10(digits) as real + 0.5).Floor, digits)
  }

  /** An integer q read as q / 10^digits, in fixed-point notation. */
  function FormatScaled(q: int, digits: nat): string {
    if q < 0 then "-" + FormatScaledNat(-q, digits) else FormatScaledNat(q, digits)
  }

  function FormatScaledNat(q: nat, digits: nat): string {
    var s := PadNat(q, digits + 1);
    if digits == 0 then s else s[..|s| - digits] + "." + s[|s| - digits..]
  }

  /** Python's s.replace(old, new) for a one-character `old`. */
  function ReplaceChar(s: string, target: char, replacement: string): (r: string)
    ensures target !in replacement ==> target !in r
  {
    if s == [] then []
    else (if s[0] == target then replacement else [s[0]]) + ReplaceChar(s[1..], target, replacement)
  }

  predicate StartsWith(s: string, prefix: string) {
    |prefix| <= |s| && s[..|prefix|] == prefix
  }
}
