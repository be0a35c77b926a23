/** Instants as whole seconds since 1970-01-01T00:00:00Z, the proleptic
    Gregorian calendar, `date.isoformat()`, and the subset of
    `datetime.fromisoformat` the pipeline is fed. Every instant in the model
    is already in UTC, so Python's `_as_utc` is the identity on it. */
module Timestamps {
  import opened Wrappers
  import opened Text

  const SecondsPerHour: int := 3600
  const SecondsPerDay: int := 86400

  /** The UTC calendar day (days since the epoch) an instant falls on. */
  function Day(t: int): int {
    t / SecondsPerDay
  }

  lemma DayBounds(t: int)
    ensures Day(t) * SecondsPerDay <= t < (Day(t) + 1) * SecondsPerDay
  {
  }

  predicate IsLeap(y: int) {
    y % 4 == 0 && (y % 100 != 0 || y % 400 == 0)
  }

  function DaysInMonth(y: int, m: int): int
    requires 1 <= m <= 12
  {
    if m == 2 then (if IsLeap(y) then 29 else 28)
    else if m == 4 || m == 6 || m == 9 || m == 11 then 30
    else 31
  }

  /** Days in the years 1 .. y-1. */
  function DaysBeforeYear(y: int): int
    requires y >= 1
  {
    var p := y - 1;
    365 * p + p / 4 - p / 100 + p / 400
  }

  /** Days in the months 1 .. m-1 of year y. */
  function DaysBeforeMonth(y: int, m: int): int
    requires 1 <= m <= 12
    decreases m
  {
    if m == 1 then 0 else DaysBeforeMonth(y, m - 1) + DaysInMonth(y, m - 1)
  }

  /** date(y, m, d).toordinal() - date(1970, 1, 1).toordinal(). */
  function EpochDay(y: int, m: int, d: int): int
    requires y >= 1 && 1 <= m <= 12
  {
    DaysBeforeYear(y) + DaysBeforeMonth(y, m) + d - 719163
  }

  /** The civil date of an epoch day (H. Hinnant's days-to-civil algorithm). */
  function CivilFromDays(z0: int): (int, int, int) {
    var z := z0 + 719468;
    var era := z / 146097;
    var doe := z - era * 146097;
    var yoe := (doe - doe / 1460 + doe / 36524 - doe / 146096) / 365;
    var doy := doe - (365 * yoe + yoe / 4 - yoe / 100);
    var mp := (5 * doy + 2) / 153;
    var d := doy - (153 * mp + 2) / 5 + 1;
    var m := if mp < 10 then mp + 3 else mp - 9;
    var y := yoe + era * 400 + (if m <= 2 then 1 else 0);
    (y, m, d)
  }

  function PadInt(i: int, width: nat): string {
    if i < 0 then "-" + PadNat(-i, width) else PadNat(i, width)
  }

  /** date.isoformat() of an epoch day: "YYYY-MM-DD". */
  function DateIso(day: int): string {
    var (y, m, d) := CivilFromDays(day);
    PadInt(y, 4) + "-" + PadInt(m, 2) + "-" + PadInt(d, 2)
  }

  predicate IsDigit(c: char) {
    '0' <= c <= '9'
  }

  /** int() of a non-empty run of ASCII digits. */
  function ParseNat(s: string): (r: Option<nat>)
    ensures r.Some? <==> s != [] && forall k :: 0 <= k < |s| ==> IsDigit(s[k])
  {
    if s == [] || !IsDigit(s[|s| - 1]) then None
    else
      var d := (s[|s| - 1] as int) - ('0' as int);
      if |s| == 1 then Some(d)
      else
        match ParseNat(s[..|s| - 1])
        case None => None
        case Some(v) => Some(10 * v + d)
  }

  /** "YYYY-MM-DD" to its epoch day, rejecting impossible dates. */
  function ParseDate(s: string): Option<int> {
    if |s| != 10 || s[4] != '-' || s[7] != '-' then None
    else
      match (ParseNat(s[..4]), ParseNat(s[5..7]), ParseNat(s[8..]))
      case (Some(y), Some(m), Some(d)) =>
        if y >= 1 && 1 <= m <= 12 && 1 <= d <= DaysInMonth(y, m) then Some(EpochDay(y, m, d)) else None
      case _ => None
  }

  /** "HH:MM", "HH:MM:SS" or "HH:MM:SS.fff…" to seconds after midnight; the
      fraction is validated and dropped. */
  function ParseTime(s: string): (r: Option<int>)
    ensures r.Some? ==> 0 <= r.value < SecondsPerDay
  {
    if |s| < 5 || s[2] != ':' || (|s| > 5 && (|s| < 8 || s[5] != ':')) then None
    else if |s| > 8 && (s[8] != '.' || ParseNat(s[9..]).None?) then None
    else
      var ss := if |s| >= 8 then ParseNat(s[6..8]) else Some(0);
      match (ParseNat(s[..2]), ParseNat(s[3..5]), ss)
      case (Some(h), Some(m), Some(sec)) =>
        if h < 24 && m < 60 && sec < 60 then Some(h * SecondsPerHour + m * 60 + sec) else None
      case _ => None
  }

  /** "+HH:MM" or "-HH:MM" to the offset from UTC in seconds. */
  function ParseOffset(s: string): (r: Option<int>)
    ensures r.Some? ==> -SecondsPerDay < r.value < SecondsPerDay
  {
    if |s| != 6 || (s[0] != '+' && s[0] != '-') || s[3] != ':' then None
    else
      match (ParseNat(s[1..3]), ParseNat(s[4..]))
      case (Some(h), Some(m)) =>
        if h < 24 && m < 60 then
          var off := h * SecondsPerHour + m * 60;
          Some(if s[0] == '-' then -off else off)
        else None
      case _ => None
  }

  predicate IsSign(c: char) {
    c == '+' || c == '-'
  }

  /** Index of the first '+' or '-' in s, or |s| when there is none. */
  function SignIndex(s: string): (k: nat)
    ensures k <= |s|
    ensures k < |s| ==> IsSign(s[k])
    ensures forall j :: 0 <= j < k ==> !IsSign(s[j])
  {
    if s == [] then 0 else if IsSign(s[0]) then 0 else 1 + SignIndex(s[1..])
  }

  /** datetime.fromisoformat(s) followed by conversion to UTC, on the subset
      "YYYY-MM-DD" or "YYYY-MM-DD(T| )HH:MM[:SS[.f…]][(+|-)HH:MM]". A value
      without an offset is read as UTC. None stands for the ValueError. */
  function ParseIso(s: string): Option<int> {
    if |s| < 10 then None
    else
      match ParseDate(s[..10])
      case None => None
      case Some(day) =>
        if |s| == 10 then Some(day * SecondsPerDay)
        else if s[10] != 'T' && s[10] != ' ' then None
        else
          var rest := s[11..];
          var k := SignIndex(rest);
          match ParseTime(rest[..k])
          case None => None
          case Some(secs) =>
            if k == |rest| then Some(day * SecondsPerDay + secs)
            else
              match ParseOffset(rest[k..])
              case None => None
              case Some(off) => Some(day * SecondsPerDay + secs - off)
  }

  /** A value carrying no offset, with a time of day. */
  predicate IsNaiveDateTime(s: string) {
    |s| > 10 && ParseIso(s).Some? && forall j :: 11 <= j < |s| ==> !IsSign(s[j])
  }

  /** Appending an offset converts local time to UTC by subtracting it; in
      particular an explicit "+00:00" means the same instant as none. */
  lemma {:induction false} OffsetConversion(s: string, o: string)
    requires IsNaiveDateTime(s) && ParseOffset(o).Some?
    ensures ParseIso(s + o) == Some(ParseIso(s).value - ParseOffset(o).value)
  {
    var t := s + o;
    assert t[..10] == s[..10];
    var rest := s[11..];
    var rest' := t[11..];
    assert rest' == rest + o;
    forall j | 0 <= j < |rest| ensures !IsSign(rest[j]) {
      assert rest[j] == s[11 + j];
    }
    SignIndexPrefix(rest, o);
    assert SignIndex(rest) == |rest|;
    assert rest'[..|rest|] == rest[..|rest|];
    assert rest'[|rest|..] == o;
  }

  lemma {:induction false} SignIndexPrefix(a: string, o: string)
    requires forall j :: 0 <= j < |a| ==> !IsSign(a[j])
    requires |o| > 0 && IsSign(o[0])
    ensures SignIndex(a + o) == |a|
    ensures SignIndex(a) == |a|
  {
    if a != [] {
      assert (a + o)[1..] == a[1..] + o;
      SignIndexPrefix(a[1..], o);
    } else {
      assert a + o == o;
    }
  }

  lemma UtcOffsetIsZero()
    ensures ParseOffset("+00:00") == Some(0)
  {
    var o := "+00:00";
    assert o[1..3] == "00" && o[4..] == "00";
    assert ParseNat("0") == Some(0);
    assert "00"[..1] == "0";
    assert ParseNat("00") == Some(0);
  }

  /** The text handling shared by parse_datetime and the state engine's
      relation time hint: strip, blank means absent, every "Z" becomes
      "+00:00", then parse; a value that does not parse is absent too. */
  function ParseIsoText(text: string): (r: Option<int>)
    ensures Strip(text) == [] ==> r == None
  {
    var candidate := Strip(text);
    if candidate == [] then None else ParseIso(ReplaceChar(candidate, 'Z', "+00:00"))
  }

  lemma {:induction false} ReplaceCharAppend(a: string, b: string, c: char, r: string)
    ensures ReplaceChar(a + b, c, r) == ReplaceChar(a, c, r) + ReplaceChar(b, c, r)
  {
    if a != [] {
      assert (a + b)[1..] == a[1..] + b;
      ReplaceCharAppend(a[1..], b, c, r);
    } else {
      assert a + b == b;
    }
  }

  lemma {:induction false} ReplaceCharAbsent(a: string, c: char, r: string)
    requires c !in a
    ensures ReplaceChar(a, c, r) == a
  {
    if a != [] {
      ReplaceCharAbsent(a[1..], c, r);
    }
  }

  /** A trailing "Z" designates UTC: "…Z" and the naive text are one instant. */
  lemma {:induction false} ZuluSuffix(s: string)
    requires IsNaiveDateTime(s) && IsStripped(s) && 'Z' !in s
    ensures ParseIsoText(s + "Z") == ParseIso(s)
  {
    var t := s + "Z";
    assert t[0] == s[0] && t[|t| - 1] == 'Z';
    StripOfStripped(t);
    assert ReplaceChar(t, 'Z', "+00:00") == s + "+00:00" by {
      ReplaceCharAppend(s, "Z", 'Z', "+00:00");
      ReplaceCharAbsent(s, 'Z', "+00:00");
      assert ReplaceChar("Z", 'Z', "+00:00") == "+00:00";
    }
    UtcOffsetIsZero();
    OffsetConversion(s, "+00:00");
  }
}
