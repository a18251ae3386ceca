/**
 The five-field cron parser (`cron.rs`), its concrete grammar, and the exact condition
 under which what it computes is what the expression denotes. Machine integers matter
 here: the release build's 64-bit addition wraps around.
 */
module CronParser {
  import opened Common
  import opened Text
  import opened CronScan

  datatype FieldSpec = FieldSpec(min: int, max: int)

  const MINUTE := FieldSpec(0, 59)
  const HOUR := FieldSpec(0, 23)
  const DAY_OF_MONTH := FieldSpec(1, 31)
  const MONTH := FieldSpec(1, 12)
  const DAY_OF_WEEK := FieldSpec(0, 7)

  /** The bounds every field of the five has. */
  predicate IsSpec(spec: FieldSpec) { 0 <= spec.min <= spec.max <= 59 }

  // ---- one item ----

  /** What one item expands: every `step`-th value from `lo` to `hi`. */
  datatype Bounds = Bounds(lo: int, hi: int, step: int)

  predicate ValidBounds(b: Bounds) { 0 <= b.lo <= b.hi <= 59 && 1 <= b.step <= I64_MAX }

  function ParseNumber(token: string, spec: FieldSpec): Option<int> {
    if IsNumber(token) && spec.min <= NumberValue(token) <= spec.max
    then Some(NumberValue(token)) else None
  }

  predicate IsStep(s: string) { IsNumber(s) && 1 <= NumberValue(s) <= I64_MAX }

  /** The ends of the range part of an item; `N/step` runs from N to the field's maximum. */
  function RangeEnds(range: string, stepped: bool, spec: FieldSpec): (r: Option<(int, int)>)
    requires IsSpec(spec)
    ensures r.Some? ==> spec.min <= r.value.0 <= r.value.1 <= spec.max
  {
    if range == "*" then Some((spec.min, spec.max))
    else if '-' in range then
      var pieces := Split(range, '-');
      if |pieces| != 2 then None
      else
        var lo, hi := ParseNumber(pieces[0], spec), ParseNumber(pieces[1], spec);
        if lo.Some? && hi.Some? && lo.value <= hi.value then Some((lo.value, hi.value)) else None
    else
      var lo := ParseNumber(range, spec);
      if lo.Some? then Some((lo.value, if stepped then spec.max else lo.value)) else None
  }

  /** The bounds of one comma-separated item (`*`, N, N-M, with optional `/step`). */
  function ItemBounds(item: string, spec: FieldSpec): (r: Option<Bounds>)
    requires IsSpec(spec)
    ensures r.Some? ==> ValidBounds(r.value) && spec.min <= r.value.lo && r.value.hi <= spec.max
  {
    var parts := Split(item, '/');
    if |parts| > 2 || (|parts| == 2 && !IsStep(parts[1])) then None
    else
      var step := if |parts| == 2 then NumberValue(parts[1]) else 1;
      var ends := RangeEnds(parts[0], |parts| == 2, spec);
      if ends.Some? then Some(Bounds(ends.value.0, ends.value.1, step)) else None
  }

  /** The values the stepping loop can be at: small ones, or one wrapped-around step below a small one. */
  predicate Steppable(v: int, step: int) { -200 <= v <= I64_MAX || (I64_MIN <= v && -200 <= v + step <= 59) }

  function StepMeasure(v: int, hi: int, step: int): int {
    if v > hi then 0
    else if step + 59 <= I64_MAX then hi - v + 1
    else if v >= -200 then 2 * (v + 200) + 1
    else 2 * (v + step + 200) + 2
  }

  /** The values pushed by the stepping loop, starting at `v`. */
  function StepValues(v: int, hi: int, step: int): seq<int>
    requires 1 <= step <= I64_MAX && 0 <= hi <= 59 && Steppable(v, step)
    requires step + 59 > I64_MAX || v >= 0
    decreases StepMeasure(v, hi, step)
  {
    if v > hi then []
    else [v] + StepValues(WrapI64(v + step), hi, step)
  }

  /** The `k`-th value an item denotes. */
  function At(b: Bounds, k: int): int { b.lo + k * b.step }

  /** `v` is one of lo, lo + step, lo + 2 step, ... up to hi. */
  ghost predicate Denotes(b: Bounds, v: int) { v <= b.hi && exists k: nat :: v == At(b, k) }

  function Expand(b: Bounds): seq<int>
    requires ValidBounds(b)
  {
    StepValues(b.lo, b.hi, b.step)
  }

  /** The first addition past the range stays within 64 bits. */
  predicate NoOverflow(b: Bounds) { b.lo + b.step <= I64_MAX }

  lemma AtMonotone(b: Bounds, j: int, k: int)
    requires b.step > 0 && j <= k
    ensures At(b, j) <= At(b, k) && At(b, k + 1) == At(b, k) + b.step
  {
    assert (k - j) * b.step >= 0;
  }

  lemma {:induction false} StepsFrom(b: Bounds, k: nat)
    requires ValidBounds(b) && NoOverflow(b) && At(b, k) <= I64_MAX
    requires At(b, k) <= b.hi ==> k == 0 || b.step <= 59
    ensures Steppable(At(b, k), b.step) && (b.step + 59 > I64_MAX || At(b, k) >= 0)
    ensures forall u :: u in StepValues(At(b, k), b.hi, b.step) <==> u <= b.hi && exists j: nat :: k <= j && u == At(b, j)
    decreases b.hi - At(b, k)
  {
    hide WrapI64, At, StepMeasure;
    AtStart(b);
    AtMonotone(b, 0, k);
    if At(b, k) <= b.hi {
      AtMonotone(b, k, k);
      if At(b, k + 1) <= b.hi { assert b.step <= 59; }
      StepsFrom(b, k + 1);
    } else {
      forall j: nat | k <= j ensures At(b, j) > b.hi { AtMonotone(b, k, j); }
    }
  }

  lemma AtStart(b: Bounds)
    ensures At(b, 0) == b.lo
  {
  }

  lemma NegativeNotDenoted(b: Bounds, u: int)
    requires ValidBounds(b) && u < 0
    ensures !Denotes(b, u)
  {
    if Denotes(b, u) {
      var k: nat :| u == At(b, k);
      AtMonotone(b, 0, k);
    }
  }

  /**
   The expansion of an item is exactly its stepped range if and only if the first step
   does not leave 64 bits; past that, the wrapped value (negative, so outside every
   field's bounds) is collected too.
   */
  lemma ExpandExact(b: Bounds)
    requires ValidBounds(b)
    ensures (forall u :: u in Expand(b) <==> Denotes(b, u)) <==> NoOverflow(b)
    ensures !NoOverflow(b) ==> exists u :: u in Expand(b) && u < 0
  {
    assert At(b, 0) == b.lo;
    if NoOverflow(b) {
      StepsFrom(b, 0);
    } else {
      var w := WrapI64(b.lo + b.step);
      NegativeNotDenoted(b, w);
      assert Expand(b) == [b.lo] + StepValues(w, b.hi, b.step);
      assert StepValues(w, b.hi, b.step)[0] == w;
      assert Expand(b)[1] == w;
    }
  }

  /** The overflow is reachable from a published schedule: the item `5/9223372036854775807` also fires at minutes 3 and 1. */
  lemma OverflowingItem()
    ensures var b := Bounds(5, 59, I64_MAX);
            && ItemBounds("5/9223372036854775807", MINUTE) == Some(b)
            && ValidBounds(b) && 3 in Expand(b) && 1 in Expand(b) && !Denotes(b, 3) && !Denotes(b, 1)
  {
    hide ItemBounds, Expand, Denotes;
    OverflowingText();
    WrappedSteps();
  }

  lemma WrappedSteps()
    ensures var b := Bounds(5, 59, I64_MAX);
            ValidBounds(b) && 3 in Expand(b) && 1 in Expand(b) && !Denotes(b, 3) && !Denotes(b, 1)
  {
    var b := Bounds(5, 59, I64_MAX);
    var v1, v2, v3, v4 := WrapI64(5 + b.step), 3, WrapI64(3 + b.step), 1;
    assert WrapI64(v1 + b.step) == 3 && WrapI64(v3 + b.step) == 1;
    assert Expand(b) == [5] + ([v1] + ([v2] + ([v3] + StepValues(v4, 59, b.step))));
    assert StepValues(v4, 59, b.step)[0] == 1;
    assert Expand(b)[2] == 3 && Expand(b)[4] == 1;
    forall k: nat ensures At(b, k) >= 5 { AtMonotone(b, 0, k); }
  }

  /** One more digit. */
  lemma NextDigit(s: string, c: char)
    requires (forall i :: 0 <= i < |s| ==> IsDigit(s[i])) && IsDigit(c)
    ensures NumberValue(s + [c]) == NumberValue(s) * 10 + DigitValue(c)
  {
    assert (s + [c])[..|s|] == s;
  }

  const GREATEST := "9223372036854775807"

  /** Digits that read as the value. */
  ghost predicate Reads(s: string, value: nat) { (forall i :: 0 <= i < |s| ==> IsDigit(s[i])) && NumberValue(s) == value }

  lemma GreatestPrefix(n: nat)
    requires n < |GREATEST|
    ensures GREATEST[..n + 1] == GREATEST[..n] + [GREATEST[n]] && IsDigit(GREATEST[n])
  {
  }

  /** The digits of the greatest number, one at a time. */
  lemma GreatestDigit(n: nat, value: nat, digit: nat)
    requires n < |GREATEST| && digit < 10 && GREATEST[n] == '0' + digit as char
    requires Reads(GREATEST[..n], value)
    ensures Reads(GREATEST[..n + 1], value * 10 + digit)
  {
    hide NumberValue;
    GreatestPrefix(n);
    NextDigit(GREATEST[..n], GREATEST[n]);
    assert DigitValue(GREATEST[n]) == digit;
  }

  lemma FirstDigits()
    ensures Reads(GREATEST[..7], 9223372)
  {
    hide NumberValue;
    assert GREATEST[..0] == "" && NumberValue("") == 0 by { NoDigits(); }
    GreatestDigit(0, 0, 9);
    GreatestDigit(1, 9, 2);
    GreatestDigit(2, 92, 2);
    GreatestDigit(3, 922, 3);
    GreatestDigit(4, 9223, 3);
    GreatestDigit(5, 92233, 7);
    GreatestDigit(6, 922337, 2);
  }

  lemma MiddleDigits()
    requires Reads(GREATEST[..7], 9223372)
    ensures Reads(GREATEST[..13], 9223372036854)
  {
    hide NumberValue;
    GreatestDigit(7, 9223372, 0);
    GreatestDigit(8, 92233720, 3);
    GreatestDigit(9, 922337203, 6);
    GreatestDigit(10, 9223372036, 8);
    GreatestDigit(11, 92233720368, 5);
    GreatestDigit(12, 922337203685, 4);
  }

  lemma LastDigits()
    requires Reads(GREATEST[..13], 9223372036854)
    ensures Reads(GREATEST[..19], 9223372036854775807)
  {
    hide NumberValue;
    GreatestDigit(13, 9223372036854, 7);
    GreatestDigit(14, 92233720368547, 7);
    GreatestDigit(15, 922337203685477, 5);
    GreatestDigit(16, 9223372036854775, 8);
    GreatestDigit(17, 92233720368547758, 0);
    GreatestDigit(18, 922337203685477580, 7);
  }

  lemma GreatestValue()
    ensures IsNumber(GREATEST) && NumberValue(GREATEST) == I64_MAX
  {
    hide NumberValue;
    FirstDigits();
    MiddleDigits();
    LastDigits();
    assert GREATEST[..19] == GREATEST;
  }

  lemma NoDigits()
    ensures NumberValue("") == 0
  {
  }

  /** The expression's text has those bounds. */
  lemma OverflowingText()
    ensures ItemBounds("5/9223372036854775807", MINUTE) == Some(Bounds(5, 59, I64_MAX))
  {
    hide NumberValue, Split, ItemBounds;
    GreatestValue();
    OneDigit();
    var it := Item(One("5"), Some(GREATEST));
    assert ItemText(it) == "5/9223372036854775807";
    ItemAccepted(it, MINUTE);
  }

  lemma OneDigit()
    ensures IsNumber("5") && NumberValue("5") == 5
  {
    assert "5"[..0] == "";
  }

  method ExpandItem(item: string, spec: FieldSpec) returns (r: Option<seq<int>>)
    requires IsSpec(spec)
    ensures r == match ItemBounds(item, spec) case None => None case Some(b) => Some(Expand(b))
  {
    var bounds := ItemBounds(item, spec);
    if bounds.None? {
      return None;
    }
    var b := bounds.value;
    var values := [];
    var v := b.lo;
    while v <= b.hi
      invariant Steppable(v, b.step) && (b.step + 59 > I64_MAX || v >= 0)
      invariant values + StepValues(v, b.hi, b.step) == Expand(b)
      decreases StepMeasure(v, b.hi, b.step)
    {
      values := values + [v];
      v := WrapI64(v + b.step);
    }
    assert values + [] == values;
    return Some(values);
  }

  // ---- one field ----

  datatype ParsedField = ParsedField(values: set<int>, restricted: bool)

  function SetOf(s: seq<int>): set<int> { set v | v in s }

  /** The union of the items' values, if every item is well formed. */
  function ItemsValues(items: seq<string>, spec: FieldSpec): Option<set<int>>
    requires IsSpec(spec)
  {
    if items == [] then Some({})
    else
      var rest := ItemsValues(items[..|items| - 1], spec);
      var b := ItemBounds(items[|items| - 1], spec);
      if rest.Some? && b.Some? then Some(rest.value + SetOf(Expand(b.value))) else None
  }

  function ParseField(field: string, spec: FieldSpec): Option<ParsedField>
    requires IsSpec(spec)
  {
    if field == "*" then Some(ParsedField(IntRange(spec.min, spec.max), false))
    else
      var values := ItemsValues(Split(field, ','), spec);
      if values.Some? then Some(ParsedField(values.value, true)) else None
  }

  lemma {:induction false} PrefixRejects(items: seq<string>, n: nat, spec: FieldSpec)
    requires IsSpec(spec) && n <= |items|
    requires ItemsValues(items[..n], spec).None?
    ensures ItemsValues(items, spec).None?
    decreases |items|
  {
    if n < |items| {
      assert items[..|items| - 1][..n] == items[..n];
      PrefixRejects(items[..|items| - 1], n, spec);
    } else {
      assert items[..n] == items;
    }
  }

  method ReadField(field: string, spec: FieldSpec) returns (r: Option<ParsedField>)
    requires IsSpec(spec)
    ensures r == ParseField(field, spec)
  {
    if field == "*" {
      return Some(ParsedField(IntRange(spec.min, spec.max), false));
    }
    var items := Split(field, ',');
    var values: set<int> := {};
    for i := 0 to |items|
      invariant ItemsValues(items[..i], spec) == Some(values)
    {
      assert items[..i + 1][..i] == items[..i];
      var expanded := ExpandItem(items[i], spec);
      if expanded.None? {
        PrefixRejects(items, i + 1, spec);
        return None;
      }
      values := values + SetOf(expanded.value);
    }
    assert items[..|items|] == items;
    return Some(ParsedField(values, true));
  }

  // ---- the whole expression ----

  function FoldSunday(values: set<int>): set<int> { set v | v in values :: if v == 7 then 0 else v }

  function ParseCronExpression(expr: string): Option<CronSchedule> {
    var fields := Words(expr);
    if |fields| != 5 then None
    else
      var minutes, hours := ParseField(fields[0], MINUTE), ParseField(fields[1], HOUR);
      var dom, months := ParseField(fields[2], DAY_OF_MONTH), ParseField(fields[3], MONTH);
      var dow := ParseField(fields[4], DAY_OF_WEEK);
      if minutes.None? || hours.None? || dom.None? || months.None? || dow.None? then None
      else Some(CronSchedule(minutes.value.values, hours.value.values, dom.value.values,
                             months.value.values, FoldSunday(dow.value.values),
                             dom.value.restricted, dow.value.restricted))
  }

  // ---- the grammar, independent of splitting ----

  datatype Range = Star | One(n: string) | Span(a: string, b: string)
  datatype Item = Item(range: Range, step: Option<string>)

  function RangeText(r: Range): string {
    match r
    case Star => "*"
    case One(n) => n
    case Span(a, b) => a + ['-'] + b
  }

  function ItemText(it: Item): string {
    RangeText(it.range) + (if it.step.Some? then ['/'] + it.step.value else "")
  }

  predicate InField(n: string, spec: FieldSpec) { IsNumber(n) && spec.min <= NumberValue(n) <= spec.max }

  predicate ValidItem(it: Item, spec: FieldSpec) {
    && (it.step.Some? ==> IsStep(it.step.value))
    && match it.range
       case Star => true
       case One(n) => InField(n, spec)
       case Span(a, b) => InField(a, spec) && InField(b, spec) && NumberValue(a) <= NumberValue(b)
  }

  /** What a valid item means: `N/k` runs from N to the field's maximum. */
  function Meaning(it: Item, spec: FieldSpec): (b: Bounds)
    requires IsSpec(spec) && ValidItem(it, spec)
    ensures ValidBounds(b)
  {
    var step := if it.step.Some? then NumberValue(it.step.value) else 1;
    match it.range
    case Star => Bounds(spec.min, spec.max, step)
    case One(n) => Bounds(NumberValue(n), if it.step.Some? then spec.max else NumberValue(n), step)
    case Span(a, b) => Bounds(NumberValue(a), NumberValue(b), step)
  }

  lemma NoSeparatorInNumber(n: string)
    requires IsNumber(n)
    ensures '/' !in n && '-' !in n && ',' !in n && '*' !in n
  {
  }

  lemma ItemTextChars(it: Item, spec: FieldSpec)
    requires ValidItem(it, spec)
    ensures '/' !in RangeText(it.range) && ',' !in ItemText(it)
  {
    if it.step.Some? { NoSeparatorInNumber(it.step.value); }
    match it.range
    case Star =>
    case One(n) => NoSeparatorInNumber(n);
    case Span(a, b) => NoSeparatorInNumber(a); NoSeparatorInNumber(b);
  }

  lemma RangeParses(it: Item, spec: FieldSpec)
    requires ValidItem(it, spec) && it.range.Span?
    ensures '-' in RangeText(it.range) && Split(RangeText(it.range), '-') == [it.range.a, it.range.b]
  {
    var a, b := it.range.a, it.range.b;
    NoSeparatorInNumber(a);
    NoSeparatorInNumber(b);
    SplitFirst(a, '-', b);
    assert Split(b, '-') == [b];
    assert RangeText(it.range)[|a|] == '-';
  }

  lemma ItemSplits(it: Item, spec: FieldSpec)
    requires ValidItem(it, spec)
    ensures Split(ItemText(it), '/') ==
            if it.step.Some? then [RangeText(it.range), it.step.value] else [RangeText(it.range)]
  {
    ItemTextChars(it, spec);
    var range := RangeText(it.range);
    if it.step.Some? {
      NoSeparatorInNumber(it.step.value);
      assert ItemText(it) == range + ['/'] + it.step.value;
      SplitFirst(range, '/', it.step.value);
      assert Split(it.step.value, '/') == [it.step.value];
    } else {
      assert ItemText(it) == range;
    }
  }

  lemma RangeAccepted(it: Item, spec: FieldSpec)
    requires IsSpec(spec) && ValidItem(it, spec)
    ensures var b := Meaning(it, spec);
            RangeEnds(RangeText(it.range), it.step.Some?, spec) == Some((b.lo, b.hi))
  {
    hide Split, NumberValue;
    match it.range
    case Star =>
    case One(n) =>
      NoSeparatorInNumber(n);
      NumberIsNoStar(n);
    case Span(a, b) =>
      RangeParses(it, spec);
      assert |RangeText(it.range)| > 1;
  }

  lemma NumberIsNoStar(n: string)
    requires IsNumber(n)
    ensures n != "*" && n != "" && '-' !in n
  {
    assert IsDigit(n[0]);
  }

  /** Every item of the grammar is accepted, with its meaning. */
  lemma ItemAccepted(it: Item, spec: FieldSpec)
    requires IsSpec(spec) && ValidItem(it, spec)
    ensures ItemBounds(ItemText(it), spec) == Some(Meaning(it, spec))
  {
    hide Split, RangeEnds, RangeText, ItemText;
    ItemSplits(it, spec);
    RangeAccepted(it, spec);
  }

  lemma RangeReadBack(text: string, stepped: bool, spec: FieldSpec) returns (range: Range)
    requires IsSpec(spec) && RangeEnds(text, stepped, spec).Some?
    ensures ValidItem(Item(range, None), spec) && RangeText(range) == text
  {
    if text == "*" {
      range := Star;
    } else if '-' in text {
      var pieces := Split(text, '-');
      JoinSplit(text, '-');
      TwoPieces(pieces, '-');
      range := Span(pieces[0], pieces[1]);
    } else {
      range := One(text);
    }
  }

  lemma TwoPieces(pieces: seq<string>, c: char)
    requires |pieces| == 2
    ensures Join(pieces, c) == pieces[0] + [c] + pieces[1]
  {
    assert pieces[1..] == [pieces[1]];
  }

  /** Nothing else is accepted. */
  lemma ItemReadBack(text: string, spec: FieldSpec) returns (it: Item)
    requires IsSpec(spec) && ItemBounds(text, spec).Some?
    ensures ValidItem(it, spec) && ItemText(it) == text
  {
    hide Split, RangeEnds, RangeText;
    var parts := Split(text, '/');
    JoinSplit(text, '/');
    var range := RangeReadBack(parts[0], |parts| == 2, spec);
    if |parts| == 2 {
      TwoPieces(parts, '/');
      it := Item(range, Some(parts[1]));
    } else {
      it := Item(range, None);
    }
  }

  function Texts(items: seq<Item>): (r: seq<string>)
    ensures |r| == |items| && forall i :: 0 <= i < |r| ==> r[i] == ItemText(items[i])
  {
    seq(|items|, i requires 0 <= i < |items| => ItemText(items[i]))
  }

  /** `field` is a comma list of exactly these valid items. */
  ghost predicate ListOf(field: string, items: seq<Item>, spec: FieldSpec) {
    && items != []
    && (forall i :: 0 <= i < |items| ==> ValidItem(items[i], spec))
    && field == Join(Texts(items), ',')
  }

  /** What a comma list denotes: the union of what its items denote. */
  ghost predicate ListDenotes(items: seq<Item>, spec: FieldSpec, v: int)
    requires IsSpec(spec) && forall i :: 0 <= i < |items| ==> ValidItem(items[i], spec)
  {
    exists i :: 0 <= i < |items| && Denotes(Meaning(items[i], spec), v)
  }

  lemma {:induction false} ItemsExpand(items: seq<Item>, spec: FieldSpec)
    requires IsSpec(spec) && forall i :: 0 <= i < |items| ==> ValidItem(items[i], spec)
    ensures ItemsValues(Texts(items), spec).Some?
    ensures forall v :: v in ItemsValues(Texts(items), spec).value
              <==> exists i :: 0 <= i < |items| && v in Expand(Meaning(items[i], spec))
    decreases |items|
  {
    if items != [] {
      var n := |items| - 1;
      ItemsExpand(items[..n], spec);
      ItemAccepted(items[n], spec);
      assert Texts(items)[..n] == Texts(items[..n]);
      var rest := ItemsValues(Texts(items[..n]), spec).value;
      forall v ensures v in rest <==> exists i :: 0 <= i < n && v in Expand(Meaning(items[i], spec)) {
        if v in rest {
          var i :| 0 <= i < n && v in Expand(Meaning(items[..n][i], spec));
          assert items[..n][i] == items[i];
        }
        if i :| 0 <= i < n && v in Expand(Meaning(items[i], spec)) {
          assert items[..n][i] == items[i];
        }
      }
    }
  }

  lemma {:induction false} ItemsReadBack(texts: seq<string>, spec: FieldSpec) returns (items: seq<Item>)
    requires IsSpec(spec) && ItemsValues(texts, spec).Some?
    ensures Texts(items) == texts && forall i :: 0 <= i < |items| ==> ValidItem(items[i], spec)
    decreases |texts|
  {
    hide ItemBounds, Expand, ItemText, ValidItem;
    if texts == [] {
      items := [];
    } else {
      var n := |texts| - 1;
      var front := ItemsReadBack(texts[..n], spec);
      var last := ItemReadBack(texts[n], spec);
      items := front + [last];
      forall i | 0 <= i < |items| ensures Texts(items)[i] == texts[i] {
        if i < n { assert Texts(front)[i] == texts[..n][i]; }
      }
    }
  }

  /**
   Acceptance: a field parses if and only if it is the bare star or a comma list of
   valid items; only the bare star is unrestricted.
   */
  lemma FieldAcceptance(field: string, spec: FieldSpec)
    requires IsSpec(spec)
    ensures ParseField(field, spec).Some? <==> exists items :: ListOf(field, items, spec)
    ensures ParseField(field, spec).Some? ==> (ParseField(field, spec).value.restricted <==> field != "*")
  {
    if ParseField(field, spec).Some? {
      if field == "*" {
        var it := Item(Star, None);
        assert ItemText(it) == "*";
        assert Texts([it]) == ["*"];
        assert ListOf(field, [it], spec);
      } else {
        var items := ItemsReadBack(Split(field, ','), spec);
        JoinSplit(field, ',');
        assert ListOf(field, items, spec);
      }
    }
    if items :| ListOf(field, items, spec) {
      ListSplits(field, items, spec);
      ItemsExpand(items, spec);
    }
  }

  lemma ListSplits(field: string, items: seq<Item>, spec: FieldSpec)
    requires ListOf(field, items, spec)
    ensures Split(field, ',') == Texts(items)
  {
    forall i | 0 <= i < |items| ensures ',' !in Texts(items)[i] { ItemTextChars(items[i], spec); }
    SplitJoin(Texts(items), ',');
  }

  /** No item of the list steps out of 64 bits. */
  ghost predicate NoItemOverflows(items: seq<Item>, spec: FieldSpec)
    requires IsSpec(spec) && forall i :: 0 <= i < |items| ==> ValidItem(items[i], spec)
  {
    forall i :: 0 <= i < |items| ==> NoOverflow(Meaning(items[i], spec))
  }

  /**
   Meaning: the parsed set is exactly the union of the items' stepped ranges if and
   only if no item's first step leaves 64 bits.
   */
  lemma FieldMeaning(field: string, items: seq<Item>, spec: FieldSpec)
    requires IsSpec(spec) && ListOf(field, items, spec) && field != "*"
    ensures ParseField(field, spec).Some?
    ensures (forall v :: v in ParseField(field, spec).value.values <==> ListDenotes(items, spec, v))
            <==> NoItemOverflows(items, spec)
  {
    hide Denotes, Meaning, Expand, NoOverflow;
    ListSplits(field, items, spec);
    ItemsExpand(items, spec);
    var values := ParseField(field, spec).value.values;
    if NoItemOverflows(items, spec) {
      forall i | 0 <= i < |items|
        ensures forall v :: v in Expand(Meaning(items[i], spec)) <==> Denotes(Meaning(items[i], spec), v)
      {
        ExpandExact(Meaning(items[i], spec));
      }
    } else {
      var i :| 0 <= i < |items| && !NoOverflow(Meaning(items[i], spec));
      ExpandExact(Meaning(items[i], spec));
      var u :| u in Expand(Meaning(items[i], spec)) && u < 0;
      NotListDenoted(items, spec, u);
    }
  }

  lemma NotListDenoted(items: seq<Item>, spec: FieldSpec, u: int)
    requires IsSpec(spec) && forall i :: 0 <= i < |items| ==> ValidItem(items[i], spec)
    requires u < 0
    ensures !ListDenotes(items, spec, u)
  {
    forall i | 0 <= i < |items| ensures !Denotes(Meaning(items[i], spec), u) {
      NegativeNotDenoted(Meaning(items[i], spec), u);
    }
  }

  /** What a list denotes lies within its field's bounds. */
  lemma DenotationInBounds(items: seq<Item>, spec: FieldSpec, v: int)
    requires IsSpec(spec) && forall i :: 0 <= i < |items| ==> ValidItem(items[i], spec)
    requires ListDenotes(items, spec, v)
    ensures spec.min <= v <= spec.max
  {
    var i :| 0 <= i < |items| && Denotes(Meaning(items[i], spec), v);
    var b := Meaning(items[i], spec);
    var k: nat :| v == At(b, k);
    AtMonotone(b, 0, k);
  }

  /** The five field specifications in order. */
  function SpecAt(i: int): (spec: FieldSpec)
    ensures IsSpec(spec)
  {
    if i == 0 then MINUTE else if i == 1 then HOUR else if i == 2 then DAY_OF_MONTH
    else if i == 3 then MONTH else DAY_OF_WEEK
  }

  /** An expression is accepted if and only if it has five fields, each a list of valid items. */
  lemma ExpressionAcceptance(expr: string)
    ensures ParseCronExpression(expr).Some?
            <==> |Words(expr)| == 5
                 && forall i :: 0 <= i < 5 ==> exists items :: ListOf(Words(expr)[i], items, SpecAt(i))
  {
    hide ListOf, Words, ParseField;
    if |Words(expr)| == 5 {
      var fields := Words(expr);
      forall i | 0 <= i < 5
        ensures ParseField(fields[i], SpecAt(i)).Some? <==> exists items :: ListOf(fields[i], items, SpecAt(i))
      {
        FieldAcceptance(fields[i], SpecAt(i));
      }
      assert SpecAt(0) == MINUTE && SpecAt(1) == HOUR && SpecAt(2) == DAY_OF_MONTH;
      assert SpecAt(3) == MONTH && SpecAt(4) == DAY_OF_WEEK;
    }
  }

  /** Weekdays are matched in 0..6 after folding, 7 meaning Sunday. */
  lemma SundayFolds(values: set<int>)
    requires forall v :: v in values ==> 0 <= v <= 7
    ensures forall w :: 0 <= w <= 6 ==> (w in FoldSunday(values) <==> w in values || (w == 0 && 7 in values))
    ensures forall w :: w in FoldSunday(values) ==> 0 <= w <= 6
  {
    if 7 in values { assert 0 in FoldSunday(values); }
    forall w | w in values && w != 7 ensures w in FoldSunday(values) { }
  }
}
