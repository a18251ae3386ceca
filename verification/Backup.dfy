/**
 Backup object keys (`backup.rs`): a timestamp is printed into the key and parsed back when
 old dumps are pruned. Parsing follows the date library's rule for numeric fields: leading
 white space is skipped, at most the field's width of digits is read, and only a year may
 carry a sign, which lifts its width.
 */
module Backup {
  import opened Common
  import opened Text
  import opened Lists
  import opened Calendar

  // ---- printing ----

  function Pad2(n: nat): (s: string)
    requires n < 100
    ensures |s| == 2 && IsNumber(s) && NumberValue(s) == n
  {
    var s := [DigitChar(n / 10), DigitChar(n % 10)];
    assert s[..1][..0] == "" && NumberValue(s[..1]) == n / 10;
    s
  }

  function Pad4(n: nat): (s: string)
    requires n < 10_000
    ensures |s| == 4 && IsNumber(s) && NumberValue(s) == n
  {
    var s := Pad2(n / 100) + Pad2(n % 100);
    assert s[..3] == Pad2(n / 100) + [s[2]] && s[..3][..2] == Pad2(n / 100);
    assert Pad2(n % 100)[..1][..0] == "" && NumberValue(Pad2(n % 100)[..1]) == n % 100 / 10;
    assert NumberValue(s[..3]) == n / 100 * 10 + n % 100 / 10;
    s
  }

  /** Four digits for the years 0 to 9999; any other year is signed and as long as it must be. */
  function YearText(y: int): string {
    if 0 <= y < 10_000 then Pad4(y)
    else (if y < 0 then "-" else "+") + LongYear(if y < 0 then -y else y)
  }

  function LongYear(n: nat): (s: string)
    ensures IsNumber(s) && NumberValue(s) == n
  {
    if n < 10_000 then Pad4(n) else Decimal(n)
  }

  /** The colon-free timestamp, truncated to the second (`YYYY-MM-DDTHH-MM-SSZ`). */
  function BackupTimestamp(nowMs: int): string {
    var d := DateOf(DayOf(nowMs));
    FieldsInstant(nowMs);
    YearText(d.year) + "-" + Pad2(d.month) + "-" + Pad2(d.day)
    + "T" + Pad2(HourOf(nowMs)) + "-" + Pad2(MinuteOf(nowMs)) + "-" + Pad2(SecondOf(nowMs)) + "Z"
  }

  const SUFFIX := ".sql.gz"

  function BackupObjectKey(prefix: string, database: string, timestamp: string): string {
    prefix + database + "/" + timestamp + SUFFIX
  }

  // ---- parsing ----

  /** What was read, and what is left. */
  datatype Scan = Fail | Read(value: int, rest: string)

  function TrimStart(s: string): (r: string)
    ensures |r| <= |s|
  {
    if s != "" && IsSpace(s[0]) then TrimStart(s[1..]) else s
  }

  /** The longest run of at most `width` digits at the front. */
  function Digits(s: string, width: nat): (r: string)
    ensures r <= s && |r| <= width && forall i :: 0 <= i < |r| ==> IsDigit(r[i])
    ensures |r| == width || |r| == |s| || !IsDigit(s[|r|])
    decreases width
  {
    if width == 0 || s == "" || !IsDigit(s[0]) then "" else [s[0]] + Digits(s[1..], width - 1)
  }

  function ReadNumber(s: string, width: nat): Scan {
    var d := Digits(s, width);
    if d == "" || NumberValue(d) > I64_MAX then Fail else Read(NumberValue(d), s[|d|..])
  }

  function ReadField(text: string, width: nat): Scan { ReadNumber(TrimStart(text), width) }

  predicate FitsI32(n: int) { -0x8000_0000 <= n <= 0x7FFF_FFFF }

  function ReadYear(text: string): Scan {
    var s := TrimStart(text);
    var y :=
      if s != "" && s[0] == '-' then
        (match ReadNumber(s[1..], |s|) case Fail => Fail case Read(v, rest) => Read(-v, rest))
      else if s != "" && s[0] == '+' then ReadNumber(s[1..], |s|)
      else ReadNumber(s, 4);
    if y.Read? && !FitsI32(y.value) then Fail else y
  }

  /** A literal character must match exactly. */
  function Expect(s: Scan, c: char): Scan {
    if s.Read? && s.rest != "" && s.rest[0] == c then Read(s.value, s.rest[1..]) else Fail
  }

  /** The instant a date and a time of day name, if they exist; second 60 is the leap second. */
  function Instant(year: int, month: int, day: int, hour: int, minute: int, second: int): Option<int> {
    if ValidDate(Date(year, month, day)) && 0 <= hour < 24 && 0 <= minute < 60 && 0 <= second <= 60
    then Some(InstantOf(DayNumber(Date(year, month, day)), hour, minute, second))
    else None
  }

  function ParseStamp(stamp: string): Option<int> {
    var year := Expect(ReadYear(stamp), '-');
    if year.Fail? then None else
    var month := Expect(ReadField(year.rest, 2), '-');
    if month.Fail? then None else
    var day := Expect(ReadField(month.rest, 2), 'T');
    if day.Fail? then None else
    var hour := Expect(ReadField(day.rest, 2), '-');
    if hour.Fail? then None else
    var minute := Expect(ReadField(hour.rest, 2), '-');
    if minute.Fail? then None else
    var second := Expect(ReadField(minute.rest, 2), 'Z');
    if second.Fail? || second.rest != "" then None else
    Instant(year.value, month.value, day.value, hour.value, minute.value, second.value)
  }

  function LastSegment(s: string): string {
    var parts := Split(s, '/');
    parts[|parts| - 1]
  }

  function StripSuffix(s: string, suffix: string): string {
    if |s| >= |suffix| && s[|s| - |suffix|..] == suffix then s[..|s| - |suffix|] else s
  }

  function ParseBackupTimestamp(objectNameOrKey: string): Option<int> {
    ParseStamp(StripSuffix(LastSegment(objectNameOrKey), SUFFIX))
  }

  function Expired(cutoff: int): string -> bool {
    (k: string) => match ParseBackupTimestamp(k) case Some(ts) => ts < cutoff case None => false
  }

  function SelectExpiredKeys(keys: seq<string>, nowMs: int, retentionDays: int): seq<string> {
    Keep(keys, Expired(nowMs - retentionDays * DAY_MS))
  }

  // ---- the round trip ----

  lemma TrimDigit(s: string)
    requires s != "" && !IsSpace(s[0])
    ensures TrimStart(s) == s
  {
  }

  lemma {:induction false} DigitsExactly(d: string, rest: string, width: nat)
    requires (forall i :: 0 <= i < |d| ==> IsDigit(d[i])) && |d| <= width
    requires |d| == width || rest == "" || !IsDigit(rest[0])
    ensures Digits(d + rest, width) == d
    decreases |d|
  {
    var s := d + rest;
    if d != "" {
      DigitsExactly(d[1..], rest, width - 1);
      assert s[1..] == d[1..] + rest;
    } else {
      assert s == rest;
    }
  }

  lemma NumberRead(d: string, rest: string, width: nat)
    requires IsNumber(d) && |d| <= width && NumberValue(d) <= I64_MAX
    requires |d| == width || rest == "" || !IsDigit(rest[0])
    ensures ReadNumber(d + rest, width) == Read(NumberValue(d), rest)
    ensures ReadField(d + rest, width) == Read(NumberValue(d), rest)
  {
    hide NumberValue;
    DigitsExactly(d, rest, width);
    assert (d + rest)[|d|..] == rest;
    assert IsDigit((d + rest)[0]);
    TrimDigit(d + rest);
  }

  /** A two-digit field and its separator. */
  lemma FieldRead(n: nat, c: char, rest: string)
    requires n < 100
    ensures Expect(ReadField(Pad2(n) + ([c] + rest), 2), c) == Read(n, rest)
  {
    hide Pad2, ReadField, NumberValue;
    NumberRead(Pad2(n), [c] + rest, 2);
    assert ([c] + rest)[1..] == rest;
  }

  lemma SignedYearRead(sign: char, d: string, rest: string)
    requires (sign == '-' || sign == '+') && IsNumber(d) && NumberValue(d) <= 0x7FFF_FFFF
    requires rest != "" && !IsDigit(rest[0])
    ensures ReadYear([sign] + d + rest) == Read(if sign == '-' then -(NumberValue(d) as int) else NumberValue(d), rest)
  {
    hide NumberValue, ReadNumber;
    var s := [sign] + d + rest;
    TrimDigit(s);
    assert s[1..] == d + rest;
    NumberRead(d, rest, |s|);
  }

  lemma YearRead(y: int, rest: string)
    requires FitsI32(y) && y > -0x8000_0000
    ensures Expect(ReadYear(YearText(y) + ("-" + rest)), '-') == Read(y, rest)
  {
    hide NumberValue, ReadNumber, Pad4, ReadYear, LongYear;
    var tail := "-" + rest;
    assert tail[1..] == rest;
    if 0 <= y < 10_000 {
      PlainYearRead(y, tail);
    } else {
      var sign := if y < 0 then '-' else '+';
      var d := LongYear(if y < 0 then -y else y);
      assert YearText(y) + tail == [sign] + d + tail;
      SignedYearRead(sign, d, tail);
    }
  }

  lemma PlainYearRead(y: nat, rest: string)
    requires y < 10_000
    ensures ReadYear(Pad4(y) + rest) == Read(y, rest)
  {
    hide NumberValue, ReadNumber, Pad4;
    NumberRead(Pad4(y), rest, 4);
    assert IsDigit((Pad4(y) + rest)[0]);
    TrimDigit(Pad4(y) + rest);
  }

  /** The timestamp's text, cut after each separator. */
  lemma TimestampPieces(t: int)
    ensures var d := DateOf(DayOf(t));
            && 0 <= HourOf(t) < 24 && 0 <= MinuteOf(t) < 60 && 0 <= SecondOf(t) < 60
            && BackupTimestamp(t)
               == YearText(d.year) + ("-" + (Pad2(d.month) + (['-'] + (Pad2(d.day) + (['T'] + (Pad2(HourOf(t)) + (['-']
                  + (Pad2(MinuteOf(t)) + (['-'] + (Pad2(SecondOf(t)) + (['Z'] + "")))))))))))
  {
    hide Pad2, YearText, HourOf, MinuteOf, SecondOf, DateOf, DayOf;
    FieldsInstant(t);
  }

  lemma ValidFields(d: Date)
    requires ValidDate(d)
    ensures 1 <= d.month <= 12 && 1 <= d.day <= 31
  {
  }

  /** Years the date library can hold (the program runs in far fewer). */
  predicate YearFits(t: int) {
    var y := DateOf(DayOf(t)).year;
    FitsI32(y) && y > -0x8000_0000
  }

  /** Parsing a printed timestamp gives the instant floored to the second. */
  lemma StampRoundTrip(t: int)
    requires YearFits(t)
    ensures ParseStamp(BackupTimestamp(t)) == Some(t / 1000 * 1000)
  {
    hide Pad2, YearText, HourOf, MinuteOf, SecondOf, DateOf, DayOf, ReadField, ReadYear, Expect, DayNumber, InstantOf, ValidDate;
    var d := DateOf(DayOf(t));
    ValidFields(d);
    TimestampPieces(t);
    var sec := Pad2(SecondOf(t)) + (['Z'] + "");
    var min := Pad2(MinuteOf(t)) + (['-'] + sec);
    var hr := Pad2(HourOf(t)) + (['-'] + min);
    var dy := Pad2(d.day) + (['T'] + hr);
    var mo := Pad2(d.month) + (['-'] + dy);
    YearRead(d.year, mo);
    FieldRead(d.month, '-', dy);
    FieldRead(d.day, 'T', hr);
    FieldRead(HourOf(t), '-', min);
    FieldRead(MinuteOf(t), '-', sec);
    FieldRead(SecondOf(t), 'Z', "");
    FieldsInstant(t);
  }

  lemma {:induction false} LastOfSplit(s: string, last: string)
    requires '/' !in last
    ensures LastSegment(s + "/" + last) == last
    decreases |s|
  {
    var all := s + ['/'] + last;
    assert all == s + "/" + last;
    var first := Before(s, '/');
    if |first| == |s| {
      SplitFirst(s, '/', last);
      WholeSplit(last);
    } else {
      var rest := s[|first| + 1..];
      assert all == first + ['/'] + (rest + ['/'] + last);
      SplitFirst(first, '/', rest + ['/'] + last);
      LastOfSplit(rest, last);
      assert rest + ['/'] + last == rest + "/" + last;
    }
  }

  lemma WholeSplit(last: string)
    requires '/' !in last
    ensures Split(last, '/') == [last]
  {
    assert Before(last, '/') == last;
  }

  predicate NoSlash(s: string) { '/' !in s }

  lemma DigitsNoSlash(s: string)
    requires forall i :: 0 <= i < |s| ==> IsDigit(s[i])
    ensures NoSlash(s)
  {
  }

  lemma YearNoSlash(y: int)
    ensures NoSlash(YearText(y))
  {
    if 0 <= y < 10_000 { DigitsNoSlash(Pad4(y)); } else { DigitsNoSlash(LongYear(if y < 0 then -y else y)); }
  }

  lemma TimestampNoSlash(t: int)
    ensures '/' !in BackupTimestamp(t)
  {
    hide Pad2, YearText, HourOf, MinuteOf, SecondOf, DateOf, DayOf;
    var d := DateOf(DayOf(t));
    FieldsInstant(t);
    YearNoSlash(d.year);
    DigitsNoSlash(Pad2(d.month));
    DigitsNoSlash(Pad2(d.day));
    DigitsNoSlash(Pad2(HourOf(t)));
    DigitsNoSlash(Pad2(MinuteOf(t)));
    DigitsNoSlash(Pad2(SecondOf(t)));
  }

  /** For every prefix, database and instant, the key's timestamp reads back. */
  lemma KeyRoundTrip(prefix: string, database: string, t: int)
    requires YearFits(t)
    ensures ParseBackupTimestamp(BackupObjectKey(prefix, database, BackupTimestamp(t))) == Some(t / 1000 * 1000)
  {
    hide BackupTimestamp, ParseStamp, LastSegment, YearFits;
    var stamp := BackupTimestamp(t);
    var name := stamp + SUFFIX;
    TimestampNoSlash(t);
    assert BackupObjectKey(prefix, database, stamp) == (prefix + database) + "/" + name;
    LastOfSplit(prefix + database, name);
    assert name[|name| - |SUFFIX|..] == SUFFIX && name[..|name| - |SUFFIX|] == stamp;
    StampRoundTrip(t);
  }

  /** Pruning selects exactly the dated dumps strictly older than the window, in order, and never an undated key. */
  lemma PruningIsExact(keys: seq<string>, nowMs: int, retentionDays: int, prefix: string, database: string, t: int)
    requires YearFits(t)
    ensures var expired, cutoff := SelectExpiredKeys(keys, nowMs, retentionDays), nowMs - retentionDays * DAY_MS;
            && (forall k :: k in expired <==> k in keys && ParseBackupTimestamp(k).Some? && ParseBackupTimestamp(k).value < cutoff)
            && (var key := BackupObjectKey(prefix, database, BackupTimestamp(t));
                key in keys ==> (key in expired <==> t / 1000 * 1000 < cutoff))
  {
    hide BackupTimestamp, ParseBackupTimestamp, BackupObjectKey, Keep, YearFits;
    KeyRoundTrip(prefix, database, t);
  }
}
