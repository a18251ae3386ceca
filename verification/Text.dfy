/**
 Strings as the agent and the CLI use them: decimal numbers, splitting on a separator,
 byte order, labels, and the composite names derived from labels.
 */
module Text {
  import opened Common

  // ---- decimal numbers ----

  predicate IsDigit(c: char) { '0' <= c <= '9' }

  /** A non-empty run of ASCII digits. */
  predicate IsNumber(s: string) { s != "" && forall i :: 0 <= i < |s| ==> IsDigit(s[i]) }

  function DigitValue(c: char): (n: nat)
    requires IsDigit(c)
    ensures n < 10
  {
    c as int - '0' as int
  }

  function DigitChar(n: nat): (c: char)
    requires n < 10
    ensures IsDigit(c) && DigitValue(c) == n
  {
    ('0' as int + n) as char
  }

  /** The value of a run of digits; leading zeros are allowed, the empty run is 0. */
  function NumberValue(s: string): nat
    requires forall i :: 0 <= i < |s| ==> IsDigit(s[i])
  {
    if s == "" then 0 else NumberValue(s[..|s| - 1]) * 10 + DigitValue(s[|s| - 1])
  }

  function Decimal(n: nat): (s: string)
    ensures IsNumber(s) && NumberValue(s) == n
  {
    if n < 10 then
      var s := [DigitChar(n)];
      assert s[..0] == "";
      s
    else
      var s := Decimal(n / 10) + [DigitChar(n % 10)];
      assert s[..|s| - 1] == Decimal(n / 10);
      s
  }

  /** The number as text, with a minus sign when negative. */
  function SignedDecimal(n: int): string {
    if n < 0 then "-" + Decimal(-n) else Decimal(n)
  }

  const I64_MAX := 0x7FFF_FFFF_FFFF_FFFF
  const I64_MIN := -0x8000_0000_0000_0000

  /** 64-bit two's-complement wrap-around. */
  function WrapI64(n: int): (r: int)
    ensures I64_MIN <= r <= I64_MAX
    ensures I64_MIN <= n <= I64_MAX ==> r == n
    ensures I64_MAX < n <= 2 * I64_MAX ==> r == n - 0x1_0000_0000_0000_0000
  {
    (n - I64_MIN) % 0x1_0000_0000_0000_0000 + I64_MIN
  }

  /** Parse a signed 64-bit decimal, as a label value is parsed. */
  function ParseSigned(s: string): Option<int> {
    var negative := s != "" && s[0] == '-';
    var digits := if negative || (s != "" && s[0] == '+') then s[1..] else s;
    if !IsNumber(digits) then None
    else
      var n: int := if negative then -(NumberValue(digits) as int) else NumberValue(digits);
      if I64_MIN <= n <= I64_MAX then Some(n) else None
  }

  /** Printing a 64-bit number and parsing it back gives the number. */
  lemma ParsePrint(n: int)
    requires I64_MIN <= n <= I64_MAX
    ensures ParseSigned(SignedDecimal(n)) == Some(n)
  {
    if n < 0 {
      assert SignedDecimal(n)[1..] == Decimal(-n);
    } else {
      assert IsDigit(Decimal(n)[0]);
    }
  }

  lemma SignedDecimalInjective(a: int, b: int)
    requires SignedDecimal(a) == SignedDecimal(b)
    ensures a == b
  {
    if a < 0 { assert SignedDecimal(a)[1..] == Decimal(-a); } else { assert IsDigit(Decimal(a)[0]); }
    if b < 0 { assert SignedDecimal(b)[1..] == Decimal(-b); } else { assert IsDigit(Decimal(b)[0]); }
  }

  // ---- splitting ----

  /** The text before the first `c`, or all of it. */
  function Before(s: string, c: char): (r: string)
    ensures r <= s && c !in r
    ensures |r| < |s| ==> s[|r|] == c
    ensures c !in s ==> r == s
  {
    if s == "" || s[0] == c then "" else [s[0]] + Before(s[1..], c)
  }

  /** Split on every `c`; there is always at least one piece. */
  function Split(s: string, c: char): (r: seq<string>)
    ensures r != []
    ensures forall i :: 0 <= i < |r| ==> c !in r[i]
    decreases |s|
  {
    var first := Before(s, c);
    if |first| == |s| then [first] else [first] + Split(s[|first| + 1..], c)
  }

  function Join(parts: seq<string>, c: char): string
    requires parts != []
  {
    if |parts| == 1 then parts[0] else parts[0] + [c] + Join(parts[1..], c)
  }

  lemma {:induction false} JoinSplit(s: string, c: char)
    ensures Join(Split(s, c), c) == s
    decreases |s|
  {
    var first := Before(s, c);
    if |first| < |s| {
      JoinSplit(s[|first| + 1..], c);
      assert Split(s, c)[1..] == Split(s[|first| + 1..], c);
      assert s == first + [c] + s[|first| + 1..];
    }
  }

  lemma BeforeSeparator(a: string, c: char, rest: string)
    requires c !in a
    ensures Before(a + [c] + rest, c) == a
  {
    if a != "" {
      BeforeSeparator(a[1..], c, rest);
      assert (a + [c] + rest)[1..] == a[1..] + [c] + rest;
    }
  }

  lemma SplitFirst(a: string, c: char, rest: string)
    requires c !in a
    ensures Split(a + [c] + rest, c) == [a] + Split(rest, c)
  {
    BeforeSeparator(a, c, rest);
    var s := a + [c] + rest;
    assert s[|a| + 1..] == rest;
  }

  /** Splitting recovers the pieces that were joined. */
  lemma {:induction false} SplitJoin(parts: seq<string>, c: char)
    requires parts != [] && forall i :: 0 <= i < |parts| ==> c !in parts[i]
    ensures Split(Join(parts, c), c) == parts
    decreases |parts|
  {
    hide Split, Join;
    if |parts| > 1 {
      SplitJoin(parts[1..], c);
      JoinFirst(parts, c);
      SplitFirst(parts[0], c, Join(parts[1..], c));
      assert parts == [parts[0]] + parts[1..];
    } else {
      assert parts == [parts[0]];
      JoinOne(parts[0], c);
    }
  }

  lemma JoinFirst(parts: seq<string>, c: char)
    requires |parts| > 1
    ensures Join(parts, c) == parts[0] + [c] + Join(parts[1..], c)
  {
  }

  lemma JoinOne(part: string, c: char)
    requires c !in part
    ensures Join([part], c) == part && Split(part, c) == [part]
  {
  }

  /** Unicode white space, on which cron fields are separated. */
  predicate IsSpace(c: char) {
    var n := c as int;
    9 <= n <= 13 || n == 0x20 || n == 0x85 || n == 0xA0 || n == 0x1680 || 0x2000 <= n <= 0x200A
    || n == 0x2028 || n == 0x2029 || n == 0x202F || n == 0x205F || n == 0x3000
  }

  /** The maximal runs of non-space characters. */
  function Words(s: string): (r: seq<string>)
    ensures forall i :: 0 <= i < |r| ==> r[i] != "" && forall j :: 0 <= j < |r[i]| ==> !IsSpace(r[i][j])
    decreases |s|
  {
    if s == "" then []
    else if IsSpace(s[0]) then Words(s[1..])
    else
      var w := Word(s);
      [w] + Words(s[|w|..])
  }

  /** The longest prefix without white space. */
  function Word(s: string): (r: string)
    ensures r <= s && (forall j :: 0 <= j < |r| ==> !IsSpace(r[j]))
    ensures s != "" && !IsSpace(s[0]) ==> r != ""
    ensures |r| < |s| ==> IsSpace(s[|r|])
  {
    if s == "" || IsSpace(s[0]) then "" else [s[0]] + Word(s[1..])
  }

  // ---- byte order ----

  /** Byte order of UTF-8 text, which is code-point order. */
  predicate StringLess(a: string, b: string) {
    b != "" && (a == "" || a[0] < b[0] || (a[0] == b[0] && StringLess(a[1..], b[1..])))
  }

  lemma StringLessTotal(a: string, b: string)
    ensures a == b || StringLess(a, b) || StringLess(b, a)
  {
    if a != "" && b != "" && a[0] == b[0] {
      StringLessTotal(a[1..], b[1..]);
      assert a == [a[0]] + a[1..] && b == [b[0]] + b[1..];
    }
  }

  lemma StringLessIrreflexive(a: string)
    ensures !StringLess(a, a)
  {
  }

  lemma StringLessTransitive(a: string, b: string, c: string)
    requires StringLess(a, b) && StringLess(b, c)
    ensures StringLess(a, c)
  {
  }

  // ---- names built from labels ----

  /** The characters of a label: lowercase letters, digits and hyphens (`LABEL_REGEX`). */
  predicate IsLabelChar(c: char) { 'a' <= c <= 'z' || IsDigit(c) || c == '-' }

  predicate IsLabel(s: string) {
    && 1 <= |s| <= 40
    && (forall i :: 0 <= i < |s| ==> IsLabelChar(s[i]))
    && s[0] != '-' && s[|s| - 1] != '-'
  }

  /** Text with neither `/` nor `_`, as every label and every footprint owner is. */
  predicate IsNamePart(s: string) { '/' !in s && '_' !in s }

  function ServiceKey(project: string, service: string): string { project + "/" + service }

  lemma SplitAtSeparator(a: string, b: string, x: string, y: string, c: char)
    requires c !in a && c !in x
    requires a + [c] + b == x + [c] + y
    ensures a == x && b == y
  {
    BeforeSeparator(a, c, b);
    BeforeSeparator(x, c, y);
    assert b == (a + [c] + b)[|a| + 1..];
    assert y == (x + [c] + y)[|x| + 1..];
  }

  lemma ServiceKeyInjective(p: string, s: string, q: string, t: string)
    requires '/' !in p && '/' !in q
    requires ServiceKey(p, s) == ServiceKey(q, t)
    ensures p == q && s == t
  {
    assert ServiceKey(p, s) == p + ['/'] + s && ServiceKey(q, t) == q + ['/'] + t;
    SplitAtSeparator(p, s, q, t, '/');
  }

  /** `launchpad_{project}_{service}_{index}`: the managed container name. */
  function ContainerName(project: string, service: string, index: int): string {
    "launchpad_" + NameTail(project, service, index)
  }

  function NameTail(project: string, service: string, index: int): string {
    project + ['_'] + (service + ['_'] + SignedDecimal(index))
  }

  lemma CommonPrefix(pre: string, x: string, y: string)
    requires pre + x == pre + y
    ensures x == y
  {
    assert x == (pre + x)[|pre|..] && y == (pre + y)[|pre|..];
  }

  /** Container names are unambiguous when neither label holds an underscore. */
  lemma ContainerNameInjective(p: string, s: string, i: int, q: string, t: string, j: int)
    requires '_' !in p && '_' !in s && '_' !in q && '_' !in t
    requires ContainerName(p, s, i) == ContainerName(q, t, j)
    ensures p == q && s == t && i == j
  {
    CommonPrefix("launchpad_", NameTail(p, s, i), NameTail(q, t, j));
    SplitAtSeparator(p, s + ['_'] + SignedDecimal(i), q, t + ['_'] + SignedDecimal(j), '_');
    SplitAtSeparator(s, SignedDecimal(i), t, SignedDecimal(j), '_');
    SignedDecimalInjective(i, j);
  }

  /** Underscores would make it ambiguous: two services of one index sharing a name. */
  lemma ContainerNameAmbiguous()
    ensures ContainerName("a_b", "c", 0) == ContainerName("a", "b_c", 0)
  {
    assert NameTail("a_b", "c", 0) == "a_b_c_" + SignedDecimal(0);
    assert NameTail("a", "b_c", 0) == "a_b_c_" + SignedDecimal(0);
  }

  /** The slot a replica's host port is filed under. */
  function PortSlot(key: string, index: int): string { key + "#" + SignedDecimal(index) }

  lemma PortSlotInjective(key: string, i: int, j: int)
    requires PortSlot(key, i) == PortSlot(key, j)
    ensures i == j
  {
    assert PortSlot(key, i)[|key| + 1..] == SignedDecimal(i);
    assert PortSlot(key, j)[|key| + 1..] == SignedDecimal(j);
    SignedDecimalInjective(i, j);
  }
}
