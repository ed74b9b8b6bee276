/**
 * The string-building part of src/network/Logger.ts: the timestamp of `__formatTimestamp` and the
 * prefix that `log`, `warn` and `error` put in front of their console output.
 */
module Logger {
  import opened Wrappers
  import opened Decimal

  /**
   * The calendar fields that `__formatTimestamp` reads from its `Date`: `getFullYear`,
   * `getMonth` (0-based), `getDate`, `getHours`, `getMinutes`, `getSeconds`.
   */
  datatype Date = Date(year: int, month: nat, day: nat, hours: nat, minutes: nat, seconds: nat)

  /** The ranges a JavaScript `Date` guarantees for its fields. */
  predicate ValidDate(d: Date) {
    d.month < 12 && 1 <= d.day <= 31 && d.hours < 24 && d.minutes < 60 && d.seconds < 60
  }

  /** `('0' + n).slice(-2)`: the last two characters of "0" followed by the numeral of n. */
  function Pad2(n: nat): (r: string)
    ensures |r| == 2 && AllDigits(r)
  {
    var digits := NatToString(n);
    var s := "0" + digits;
    assert forall i :: 1 <= i < |s| ==> s[i] == digits[i - 1];
    s[|s| - 2..]
  }

  /** Below 100 the two characters are the number itself, zero-padded. */
  lemma Pad2Value(n: nat)
    requires n < 100
    ensures ParseNat(Pad2(n)) == n
    ensures n < 10 ==> Pad2(n) == "0" + NatToString(n)
    ensures 10 <= n ==> Pad2(n) == NatToString(n)
  {
    ParseNatToString(n);
    if n < 10 {
      assert Pad2(n)[..1] == "0";
    } else {
      assert NatToString(n)[..1] == NatToString(n / 10);
    }
  }

  /** The months 0..11 are written "01".."12". */
  lemma MonthField(m: nat)
    requires m < 12
    ensures |Pad2(m + 1)| == 2 && ParseNat(Pad2(m + 1)) == m + 1
    ensures m < 9 ==> Pad2(m + 1)[0] == '0'
    ensures m >= 9 ==> Pad2(m + 1) == "1" + [DigitChar(m - 9)]
  {
    Pad2Value(m + 1);
    if m >= 9 {
      assert NatToString(m + 1) == NatToString(1) + [DigitChar(m - 9)];
    }
  }

  /**
   * `Y-MM-D H:MM:SS`: month, minutes and seconds padded to two digits, the rest unpadded.
   * It holds no '[', so the first '[' of a console prefix is the one before the level.
   */
  function FormatTimestamp(d: Date): (r: string)
    ensures forall j :: 0 <= j < |r| ==> r[j] != '['
  {
    var y := IntToString(d.year);
    assert forall j :: 0 <= j < |y| ==> y[j] != '[' by {
      if d.year < 0 { assert AllDigits(y[1..]); }
    }
    y + "-" + Pad2(d.month + 1) + "-" + NatToString(d.day) + " "
    + NatToString(d.hours) + ":" + Pad2(d.minutes) + ":" + Pad2(d.seconds)
  }

  /** The separators of the timestamp layout, in order. */
  const TimestampSeparators: string := "-- ::"

  /** The position of the first `c` in `s`, or |s| when there is none. */
  function IndexOf(s: string, c: char): (i: nat)
    ensures i <= |s| && (i < |s| ==> s[i] == c)
    ensures forall j :: 0 <= j < i ==> s[j] != c
  {
    if s == [] || s[0] == c then 0 else 1 + IndexOf(s[1..], c)
  }

  /** Splits `s` at its first `c`: the part before it and the part after it. */
  function SplitAt(s: string, c: char): Option<(string, string)> {
    var i := IndexOf(s, c);
    if i < |s| then Some((s[..i], s[i + 1..])) else None
  }

  lemma SplitAtDigits(a: string, c: char, b: string)
    requires AllDigits(a) && !IsDigit(c)
    ensures SplitAt(a + [c] + b, c) == Some((a, b))
  {
    var s := a + [c] + b;
    assert s[|a|] == c;
    assert forall j :: 0 <= j < |a| ==> s[j] == a[j];
    assert s[..|a|] == a && s[|a| + 1..] == b;
  }

  /** `parts` joined by the separators `seps`, one between each two neighbours. */
  function Join(parts: seq<string>, seps: string): string
    requires |parts| == |seps| + 1
  {
    if seps == [] then parts[0] else parts[0] + [seps[0]] + Join(parts[1..], seps[1..])
  }

  /** Cuts `s` at the first occurrence of each separator in turn (the partner of Join). */
  function Fields(s: string, seps: string): Option<seq<string>> {
    if seps == [] then Some([s])
    else
      match SplitAt(s, seps[0])
      case None => None
      case Some((a, b)) =>
        match Fields(b, seps[1..])
        case None => None
        case Some(rest) => Some([a] + rest)
  }

  lemma {:induction false} FieldsJoin(parts: seq<string>, seps: string)
    requires |parts| == |seps| + 1
    requires forall k :: 0 <= k < |seps| ==> AllDigits(parts[k]) && !IsDigit(seps[k])
    ensures Fields(Join(parts, seps), seps) == Some(parts)
  {
    if seps != [] {
      var tail := Join(parts[1..], seps[1..]);
      assert Join(parts, seps) == parts[0] + [seps[0]] + tail;
      SplitAtDigits(parts[0], seps[0], tail);
      assert forall k :: 0 <= k < |seps[1..]| ==> parts[1..][k] == parts[k + 1] && seps[1..][k] == seps[k + 1];
      FieldsJoin(parts[1..], seps[1..]);
      assert [parts[0]] + parts[1..] == parts;
    } else {
      assert parts == [parts[0]];
    }
  }

  /** Reads a numeral field; None when it is not a non-empty run of digits. */
  function ReadNat(s: string): Option<nat> {
    if s != [] && AllDigits(s) then Some(ParseNat(s)) else None
  }

  /** Reads back a timestamp of a non-negative year (the partner of FormatTimestamp). */
  function ParseTimestamp(s: string): Option<Date> {
    match Fields(s, TimestampSeparators)
    case Some(f) =>
      if |f| == 6 then
        match (ReadNat(f[0]), ReadNat(f[1]), ReadNat(f[2]), ReadNat(f[3]), ReadNat(f[4]), ReadNat(f[5]))
        case (Some(y), Some(mo), Some(dd), Some(hh), Some(mi), Some(ss)) =>
          if mo >= 1 then Some(Date(y, mo - 1, dd, hh, mi, ss)) else None
        case _ => None
      else None
    case None => None
  }

  lemma ReadNatToString(n: nat)
    ensures ReadNat(NatToString(n)) == Some(n)
  {
    ParseNatToString(n);
  }

  lemma ReadPad2(n: nat)
    requires n < 100
    ensures ReadNat(Pad2(n)) == Some(n)
  {
    Pad2Value(n);
  }

  lemma JoinTwo(a: string, b: string, c: char)
    ensures Join([a, b], [c]) == a + [c] + b
  {
    assert [a, b][1..] == [b];
  }

  lemma JoinTimestampFields(a: string, b: string, c: string, d: string, e: string, f: string)
    ensures Join([a, b, c, d, e, f], TimestampSeparators) == a + "-" + b + "-" + c + " " + d + ":" + e + ":" + f
  {
    JoinTwo(e, f, ':');
    assert [d, e, f][1..] == [e, f] && ":"[..] == [':'];
    assert Join([d, e, f], "::") == d + ":" + e + ":" + f;
    assert [c, d, e, f][1..] == [d, e, f];
    assert Join([c, d, e, f], " ::") == c + " " + d + ":" + e + ":" + f;
    assert [b, c, d, e, f][1..] == [c, d, e, f];
    assert Join([b, c, d, e, f], "- ::") == b + "-" + c + " " + d + ":" + e + ":" + f;
    assert [a, b, c, d, e, f][1..] == [b, c, d, e, f];
  }

  lemma ParseFieldsOf(s: string, parts: seq<string>, d: Date)
    requires Fields(s, TimestampSeparators) == Some(parts) && |parts| == 6
    requires ReadNat(parts[0]) == Some(d.year) && ReadNat(parts[1]) == Some(d.month + 1)
    requires ReadNat(parts[2]) == Some(d.day) && ReadNat(parts[3]) == Some(d.hours)
    requires ReadNat(parts[4]) == Some(d.minutes) && ReadNat(parts[5]) == Some(d.seconds)
    ensures ParseTimestamp(s) == Some(d)
  {
  }

  lemma {:induction false} TimestampRoundTrip(d: Date)
    requires ValidDate(d) && d.year >= 0
    ensures ParseTimestamp(FormatTimestamp(d)) == Some(d)
  {
    var parts := [NatToString(d.year), Pad2(d.month + 1), NatToString(d.day),
                  NatToString(d.hours), Pad2(d.minutes), Pad2(d.seconds)];
    JoinTimestampFields(parts[0], parts[1], parts[2], parts[3], parts[4], parts[5]);
    FieldsJoin(parts, TimestampSeparators);
    assert FormatTimestamp(d) == Join(parts, TimestampSeparators);
    ReadNatToString(d.year);
    ReadPad2(d.month + 1);
    ReadNatToString(d.day);
    ReadNatToString(d.hours);
    ReadPad2(d.minutes);
    ReadPad2(d.seconds);
    ParseFieldsOf(FormatTimestamp(d), parts, d);
  }

  /** The three console levels of Logger. */
  datatype Level = Info | Warn | Error

  function LevelName(l: Level): string {
    match l
    case Info => "INFO"
    case Warn => "WARN"
    case Error => "ERROR"
  }

  /**
   * `__formatTimestamp(now) + " [LEVEL] [" + tag + "]"`, the first console argument. The
   * prefix determines the timestamp, the level and the tag.
   */
  function LogPrefix(d: Date, level: Level, tag: string): (r: string)
    ensures ParsePrefix(r) == Some((FormatTimestamp(d), level, tag))
  {
    ParseAfterTimestamp(FormatTimestamp(d), level, tag);
    FormatTimestamp(d) + " [" + LevelName(level) + "] [" + tag + "]"
  }

  /** Reads back the level and the tag of a prefix (the partner of LogPrefix). */
  function ParsePrefix(s: string): Option<(string, Level, string)> {
    var i := IndexOf(s, '[');
    if i + 1 < |s| && i >= 1 && s[|s| - 1] == ']' then
      var ts := s[..i - 1];
      var rest := s[i + 1..|s| - 1];
      if |rest| >= 7 && rest[..7] == "INFO] [" then Some((ts, Info, rest[7..]))
      else if |rest| >= 7 && rest[..7] == "WARN] [" then Some((ts, Warn, rest[7..]))
      else if |rest| >= 8 && rest[..8] == "ERROR] [" then Some((ts, Error, rest[8..]))
      else None
    else None
  }

  /** Any bracket-free text in front of the level and the tag is read back as it was. */
  lemma {:induction false} ParseAfterTimestamp(ts: string, level: Level, tag: string)
    requires forall j :: 0 <= j < |ts| ==> ts[j] != '['
    ensures ParsePrefix(ts + " [" + LevelName(level) + "] [" + tag + "]") == Some((ts, level, tag))
  {
    var lv := LevelName(level);
    var s := ts + " [" + lv + "] [" + tag + "]";
    var i := IndexOf(s, '[');
    assert s[|ts| + 1] == '[';
    assert s[|ts|] == ' ';
    assert forall j :: 0 <= j < |ts| ==> s[j] == ts[j];
    assert i == |ts| + 1;
    assert s[..i - 1] == ts;
    var rest := s[i + 1..|s| - 1];
    assert rest == lv + "] [" + tag;
    match level
    case Info => assert rest[..7] == "INFO] [";
    case Warn => assert rest[..7] == "WARN] [" && rest[0] != 'I';
    case Error => assert rest[..8] == "ERROR] [" && rest[0] != 'I' && rest[0] != 'W';
  }
}
